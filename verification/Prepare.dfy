/**
 * fcgi_prepare_request without a request body (plugins/fastcgi/fastcgi.c) and the guarded
 * parameter writes of fcgi_env_write (plugins/fastcgi/fcgi_env.c). The environment is an
 * arbitrary list of pairs.
 */
module Prepare {
  import opened Bytes
  import opened Protocol
  import opened Records

  const BUFFER_SIZE: nat := 4096

  /** The guard of __write_param. */
  predicate Fits(room: nat, p: Pair) { room > 8 + |p.key| + |p.value| }

  /** How many pairs are written before the guard first fails. */
  function FitCount(pairs: seq<Pair>, room: nat): (n: nat)
    ensures n <= |pairs|
  {
    if pairs == [] || !Fits(room, pairs[0]) then 0
    else 1 + FitCount(pairs[1..], room - PairSize(pairs[0]))
  }

  /** The bytes of `s` at `at` are `bytes`. */
  ghost predicate Slot(s: seq<byte>, at: nat, bytes: seq<byte>) {
    at + |bytes| <= |s| && s[at..at + |bytes|] == bytes
  }

  lemma SlotPatched(s: seq<byte>, at: nat, bytes: seq<byte>)
    requires at + |bytes| <= |s|
    ensures Slot(Patch(s, at, bytes), at, bytes)
  {}

  lemma SlotKept(s: seq<byte>, at: nat, bytes: seq<byte>, to: nat, more: seq<byte>)
    requires Slot(s, at, bytes) && to + |more| <= |s|
    requires at + |bytes| <= to || to + |more| <= at
    ensures Slot(Patch(s, to, more), at, bytes)
  {
    var r := Patch(s, to, more);
    forall k | at <= k < at + |bytes| ensures r[k] == bytes[k - at] {
      assert s[at..at + |bytes|][k - at] == s[k];
    }
  }

  /** fcgi_env_write: pairs are written until one does not fit; the byte count is returned. */
  method EnvWrite(buf: array<byte>, at: nat, pairs: seq<Pair>) returns (pos: nat)
    requires at <= buf.Length
    modifies buf
    ensures var env := ParamBytes(pairs[..FitCount(pairs, buf.Length - at)]);
            && pos == |env| && (pos > 0 ==> at + pos < buf.Length) && at + pos <= buf.Length
            && buf[..] == Patch(old(buf[..]), at, env)
  {
    hide PairBytes, PairSize, ParamBytes, FitCount, Patch;
    var len := buf.Length - at;
    pos := 0;
    ghost var s := buf[..];
    var i := 0;
    Nothing(pairs, s, at, len);
    while i < |pairs| && len - pos > 8 + |pairs[i].key| + |pairs[i].value|
      invariant 0 <= i <= |pairs| && pos == |ParamBytes(pairs[..i])|
      invariant at + pos <= buf.Length && (pos > 0 ==> at + pos < buf.Length)
      invariant buf[..] == Patch(s, at, ParamBytes(pairs[..i]))
      invariant FitCount(pairs, len) == i + FitCount(pairs[i..], len - pos)
    {
      PairSmall(pairs[i]);
      FitOne(pairs, i, len - pos);
      ParamNext(pairs, i);
      PatchNext(s, at, ParamBytes(pairs[..i]), PairBytes(pairs[i]));
      var n := WriteParam(buf, at + pos, pairs[i]);
      pos := pos + n;
      i := i + 1;
    }
    FitStop(pairs, i, len - pos);
  }

  lemma Nothing(pairs: seq<Pair>, s: seq<byte>, at: nat, len: nat)
    requires at <= |s|
    ensures ParamBytes(pairs[..0]) == [] && pairs[0..] == pairs && Patch(s, at, []) == s
  {
    assert pairs[..0] == [];
  }

  lemma PairSmall(p: Pair)
    ensures PairSize(p) <= 8 + |p.key| + |p.value| && |PairBytes(p)| == PairSize(p)
  {}

  lemma FitOne(pairs: seq<Pair>, i: nat, room: nat)
    requires i < |pairs| && Fits(room, pairs[i])
    ensures FitCount(pairs[i..], room) == 1 + FitCount(pairs[i + 1..], room - PairSize(pairs[i]))
  {
    assert pairs[i..][1..] == pairs[i + 1..];
  }

  lemma FitStop(pairs: seq<Pair>, i: nat, room: nat)
    requires i <= |pairs| && (i < |pairs| ==> !Fits(room, pairs[i]))
    ensures FitCount(pairs[i..], room) == 0
  {}

  // ----- the request ------------------------------------------------------------------------

  /** `~(len - 1) & 7`: what brings the length up to a multiple of eight. */
  function PadFor(len: nat): (pad: nat)
    ensures (len + pad) % 8 == 0 && pad < 8
  {
    7 - (len - 1) % 8
  }

  function RecordHeader(kind: byte, id: uint16, len: uint16, pad: byte): Header {
    Header(VERSION_1, kind, id, len, pad)
  }

  /** The pairs that make it into the request. */
  function Sent(pairs: seq<Pair>): seq<Pair> { pairs[..FitCount(pairs, BUFFER_SIZE - 24)] }

  /** The place after the padded params record. */
  function ParamsEnd(pairs: seq<Pair>): nat {
    var n := |ParamBytes(Sent(pairs))|;
    24 + n + PadFor(n)
  }

  /** The byte string is begin-request, one params record with `sent`, empty params, empty stdin. */
  ghost predicate IsRequest(b: seq<byte>, id: uint16, keepAlive: bool, sent: seq<Pair>) {
    var ps := Packets(b);
    && |ps| == 4 && Tail(b) == []
    && ReadHeader(ps[0]) == RecordHeader(BEGIN_REQUEST, id, 8, 0)
    && Body(ps[0])[..3] == [0, 1, if keepAlive then KEEP_CONN else 0]
    && Body(ps[1]) == ParamBytes(sent)
    && ReadHeader(ps[1]) == RecordHeader(PARAMS, id, |Body(ps[1])|, PadFor(|Body(ps[1])|))
    && ReadHeader(ps[2]) == RecordHeader(PARAMS, id, 0, 0)
    && ReadHeader(ps[3]) == RecordHeader(STDIN, id, 0, 0)
  }

  lemma HeaderAt(s: seq<byte>, at: nat, h: Header)
    requires Slot(s, at, HeaderBytes(h)) && at + HEADER_LEN <= |s|
    ensures ReadHeader(s[at..]) == h && ReadHeader(s[at..at + HEADER_LEN]) == h
  {
    var p := s[at..at + HEADER_LEN];
    assert p == HeaderBytes(h) + [p[7]];
    HeaderRoundTrip(h, p[7]);
    PrefixHeader(p, s[at..]);
  }

  /** A packet that stands at `at`, up to `to`. */
  lemma PacketAt(s: seq<byte>, at: nat, to: nat, h: Header, body: seq<byte>)
    requires Slot(s, at, HeaderBytes(h)) && |body| <= h.bodyLen
    requires at + HEADER_LEN + h.bodyLen + h.bodyPad == to <= |s| && Slot(s, at + HEADER_LEN, body)
    ensures |s[at..to]| == PacketSize(s[at..to]) && ReadHeader(s[at..to]) == h
    ensures Body(s[at..to])[..|body|] == body
  {
    var p := s[at..to];
    HeaderAt(s, at, h);
    assert s[at..at + HEADER_LEN] <= p;
    PrefixHeader(s[at..at + HEADER_LEN], p);
    hide ReadHeader, HeaderBytes;
    forall k | 0 <= k < |body| ensures Body(p)[k] == body[k] {
      assert s[at + HEADER_LEN..at + HEADER_LEN + |body|][k] == s[at + HEADER_LEN + k] == p[HEADER_LEN + k];
    }
  }

  lemma FourPackets(b: seq<byte>, p0: Packet, p1: Packet, p2: Packet, p3: Packet)
    requires b == p0 + p1 + p2 + p3
    ensures Packets(b) == [p0, p1, p2, p3] && Tail(b) == []
  {
    hide Packets, Tail, PacketSize;
    var ps := [p0, p1, p2, p3];
    assert ps[1..] == [p1, p2, p3] && ps[1..][1..] == [p2, p3] && ps[1..][1..][1..] == [p3];
    assert ps[1..][1..][1..][1..] == [];
    assert Joined([p3]) == p3 + Joined([]);
    assert Joined([p2, p3]) == p2 + p3;
    assert Joined([p1, p2, p3]) == p1 + (p2 + p3);
    assert Joined(ps) == p0 + (p1 + (p2 + p3));
    assert Joined(ps) + [] == b;
    FramingUnique(ps, []);
  }

  /** The stores of a request, seen from the buffer: the begin record, */
  ghost predicate Begun(s: seq<byte>, id: uint16, keepAlive: bool) {
    && |s| == BUFFER_SIZE
    && Slot(s, 0, HeaderBytes(RecordHeader(BEGIN_REQUEST, id, 8, 0)))
    && Slot(s, 8, [0, 1, if keepAlive then KEEP_CONN else 0])
  }

  /** the params record, */
  ghost predicate HasParams(s: seq<byte>, id: uint16, env: seq<byte>) {
    && |s| == BUFFER_SIZE && 24 + |env| + PadFor(|env|) <= BUFFER_SIZE
    && Slot(s, 16, HeaderBytes(RecordHeader(PARAMS, id, |env|, PadFor(|env|))))
    && Slot(s, 24, env)
  }

  /** and all of it. */
  ghost predicate Stored(s: seq<byte>, id: uint16, keepAlive: bool, env: seq<byte>, end: nat) {
    && Begun(s, id, keepAlive) && HasParams(s, id, env)
    && end == 24 + |env| + PadFor(|env|) && end + 16 <= |s|
    && Slot(s, end, HeaderBytes(RecordHeader(PARAMS, id, 0, 0)))
    && Slot(s, end + 8, HeaderBytes(RecordHeader(STDIN, id, 0, 0)))
  }

  lemma BegunKept(s: seq<byte>, id: uint16, keepAlive: bool, to: nat, more: seq<byte>)
    requires Begun(s, id, keepAlive) && 16 <= to && to + |more| <= BUFFER_SIZE
    ensures Begun(Patch(s, to, more), id, keepAlive)
  {
    hide Patch, Slot, HeaderBytes;
    SlotKept(s, 0, HeaderBytes(RecordHeader(BEGIN_REQUEST, id, 8, 0)), to, more)
      by { HeaderBytesSize(RecordHeader(BEGIN_REQUEST, id, 8, 0)); }
    SlotKept(s, 8, [0, 1, if keepAlive then KEEP_CONN else 0], to, more);
  }

  lemma HasParamsKept(s: seq<byte>, id: uint16, env: seq<byte>, to: nat, more: seq<byte>)
    requires HasParams(s, id, env) && 24 + |env| <= to && to + |more| <= BUFFER_SIZE
    ensures HasParams(Patch(s, to, more), id, env)
  {
    hide Patch, Slot, HeaderBytes, PadFor;
    var h := RecordHeader(PARAMS, id, |env|, PadFor(|env|));
    HeaderBytesSize(h);
    SlotKept(s, 16, HeaderBytes(h), to, more);
    SlotKept(s, 24, env, to, more);
  }

  lemma HeaderBytesSize(h: Header)
    ensures |HeaderBytes(h)| == 7
  {}

  lemma StoredIsRequest(s: seq<byte>, id: uint16, keepAlive: bool, sent: seq<Pair>, end: nat)
    requires Stored(s, id, keepAlive, ParamBytes(sent), end)
    ensures IsRequest(s[..end + 16], id, keepAlive, sent)
  {
    hide HeaderBytes, Slot, ParamBytes, PacketSize, ReadHeader, Packets, Tail;
    var env := ParamBytes(sent);
    SlotEmpty(s, end + 8);
    SlotEmpty(s, end + 16);
    PacketAt(s, 0, 16, RecordHeader(BEGIN_REQUEST, id, 8, 0), [0, 1, if keepAlive then KEEP_CONN else 0]);
    PacketAt(s, 16, end, RecordHeader(PARAMS, id, |env|, PadFor(|env|)), env);
    PacketAt(s, end, end + 8, RecordHeader(PARAMS, id, 0, 0), []);
    PacketAt(s, end + 8, end + 16, RecordHeader(STDIN, id, 0, 0), []);
    FourSlices(s, 16, end, end + 8, end + 16);
    FourPackets(s[..end + 16], s[0..16], s[16..end], s[end..end + 8], s[end + 8..end + 16]);
    assert Body(s[16..end])[..|env|] == Body(s[16..end]);
  }

  /**
   * A prepared request, byte by byte: four records of version 1 for the one id, of the types 1, 4, 4
   * and 5; the responder role and the keep-alive flag; the parameters padded to a multiple of eight.
   */
  lemma OnTheWire(b: seq<byte>, id: uint16, keepAlive: bool, sent: seq<Pair>)
    requires IsRequest(b, id, keepAlive, sent)
    ensures var ps, hi, lo, n := Packets(b), id / 256, id % 256, |ParamBytes(sent)|;
            && b == Joined(ps)
            && |ps[0]| == 16 && ps[0][..7] == [1, 1, hi, lo, 0, 8, 0]
            && ps[0][8..11] == [0, 1, if keepAlive then 1 else 0]
            && |ps[1]| % 8 == 0 && 8 + n <= |ps[1]| < 16 + n && n < 0x1_0000
            && ps[1][..7] == [1, 4, hi, lo, n / 256, n % 256, |ps[1]| - 8 - n] && ps[1][8..8 + n] == ParamBytes(sent)
            && |ps[2]| == 8 && ps[2][..7] == [1, 4, hi, lo, 0, 0, 0]
            && |ps[3]| == 8 && ps[3][..7] == [1, 5, hi, lo, 0, 0, 0]
  {
    hide ParamBytes, Packets, Tail, Joined;
    var ps := Packets(b);
    StreamSplit(b);
    assert Joined(ps) + [] == Joined(ps);
    forall k | 0 <= k < 4 ensures HeaderBytes(ReadHeader(ps[k])) == ps[k][..7] {
      HeaderReadBack(ps[k][..8]);
      PrefixHeader(ps[k][..8], ps[k]);
    }
    assert ps[0][8..11] == Body(ps[0])[..3];
  }

  lemma FourSlices(s: seq<byte>, a: nat, b: nat, c: nat, d: nat)
    requires a <= b <= c <= d <= |s|
    ensures s[..d] == s[0..a] + s[a..b] + s[b..c] + s[c..d]
  {}

  lemma SlotEmpty(s: seq<byte>, at: nat)
    requires at <= |s|
    ensures Slot(s, at, [])
  {}

  /** The begin-request record, into the first sixteen bytes. */
  method WriteBegin(buf: array<byte>, id: uint16, keepAlive: bool)
    requires buf.Length == BUFFER_SIZE
    modifies buf
    ensures Begun(buf[..], id, keepAlive)
  {
    hide HeaderBytes, Patch, Slot;
    var h := RecordHeader(BEGIN_REQUEST, id, 8, 0);
    HeaderBytesSize(h);
    SlotPatched(buf[..], 0, HeaderBytes(h));
    WriteHeader(buf, 0, h);
    var body := [RESPONDER / 256, RESPONDER % 256, if keepAlive then KEEP_CONN else 0];
    SlotKept(buf[..], 0, HeaderBytes(h), 8, body);
    SlotPatched(buf[..], 8, body);
    Copy(buf, 8, body);
  }

  /** The environment at its place, then the header before it. */
  method WriteParams(buf: array<byte>, id: uint16, keepAlive: bool, pairs: seq<Pair>) returns (ret: nat)
    requires buf.Length == BUFFER_SIZE && Begun(buf[..], id, keepAlive)
    modifies buf
    ensures ret == |ParamBytes(Sent(pairs))|
    ensures Begun(buf[..], id, keepAlive) && HasParams(buf[..], id, ParamBytes(Sent(pairs)))
  {
    hide HeaderBytes, Patch, Slot, FitCount, ParamBytes, PadFor, Begun;
    ghost var env, s := ParamBytes(Sent(pairs)), buf[..];
    ret := EnvWrite(buf, 24, pairs);
    PadRoom(ret);
    BegunKept(s, id, keepAlive, 24, env);
    SlotPatched(s, 24, env);
    var h := RecordHeader(PARAMS, id, ret, PadFor(ret));
    HeaderBytesSize(h);
    ghost var s' := buf[..];
    BegunKept(s', id, keepAlive, 16, HeaderBytes(h));
    SlotKept(s', 24, env, 16, HeaderBytes(h));
    SlotPatched(s', 16, HeaderBytes(h));
    WriteHeader(buf, 16, h);
  }

  lemma PadRoom(n: nat)
    requires n > 0 ==> 24 + n < BUFFER_SIZE
    ensures 24 + n + PadFor(n) <= BUFFER_SIZE
  {}

  /** The two empty records, each behind its check that a header still fits. */
  method WriteEnds(buf: array<byte>, id: uint16, keepAlive: bool, ghost env: seq<byte>, end: nat)
    returns (ok: bool, pos: nat)
    requires buf.Length == BUFFER_SIZE && Begun(buf[..], id, keepAlive) && HasParams(buf[..], id, env)
    requires end == 24 + |env| + PadFor(|env|)
    modifies buf
    ensures ok <==> end + 16 < BUFFER_SIZE
    ensures ok ==> pos == end + 16 && Stored(buf[..], id, keepAlive, env, end)
  {
    hide HeaderBytes, Patch, Slot, PadFor, Begun, HasParams;
    pos := end;
    ok := false;
    HasParamsEnd(buf[..], id, env);
    if BUFFER_SIZE - pos <= HEADER_LEN {
      return;
    }
    var h := RecordHeader(PARAMS, id, 0, 0);
    HeaderBytesSize(h);
    BegunKept(buf[..], id, keepAlive, end, HeaderBytes(h));
    HasParamsKept(buf[..], id, env, end, HeaderBytes(h));
    SlotPatched(buf[..], end, HeaderBytes(h));
    WriteHeader(buf, pos, h);
    pos := pos + HEADER_LEN;
    if BUFFER_SIZE - pos <= HEADER_LEN {
      return;
    }
    var g := RecordHeader(STDIN, id, 0, 0);
    HeaderBytesSize(g);
    BegunKept(buf[..], id, keepAlive, end + 8, HeaderBytes(g));
    HasParamsKept(buf[..], id, env, end + 8, HeaderBytes(g));
    SlotKept(buf[..], end, HeaderBytes(h), end + 8, HeaderBytes(g));
    SlotPatched(buf[..], end + 8, HeaderBytes(g));
    WriteHeader(buf, pos, g);
    pos := pos + HEADER_LEN;
    ok := true;
  }

  lemma HasParamsEnd(s: seq<byte>, id: uint16, env: seq<byte>)
    requires HasParams(s, id, env)
    ensures 24 + |env| + PadFor(|env|) <= BUFFER_SIZE
  {}

  /**
   * fcgi_prepare_request, body-less: it succeeds exactly when everything fits the buffer, and
   * then the buffer holds the four records with the pairs that fitted.
   */
  method PrepareRequest(buf: array<byte>, id: uint16, keepAlive: bool, pairs: seq<Pair>)
    returns (ok: bool, pos: nat)
    requires buf.Length == BUFFER_SIZE
    modifies buf
    ensures ok <==> id > 0 && ParamsEnd(pairs) + 16 < BUFFER_SIZE
    ensures ok ==> pos == ParamsEnd(pairs) + 16 && IsRequest(buf[..pos], id, keepAlive, Sent(pairs))
    ensures id > 0 && Demand(pairs) <= 4048 ==> ok && IsRequest(buf[..pos], id, keepAlive, pairs)
  {
    hide FitCount, ParamBytes, IsRequest, Stored, PadFor, Begun, HasParams, Demand;
    if Demand(pairs) <= 4048 {
      SmallIsPrepared(pairs);
    }
    pos := 0;
    if id == 0 {
      return false, pos;
    }
    WriteBegin(buf, id, keepAlive);
    var ret := WriteParams(buf, id, keepAlive, pairs);
    ok, pos := WriteEnds(buf, id, keepAlive, ParamBytes(Sent(pairs)), 24 + ret + PadFor(ret));
    if ok {
      StoredIsRequest(buf[..], id, keepAlive, Sent(pairs), ParamsEnd(pairs));
      assert buf[..][..pos] == buf[..pos];
    }
  }

  /**
   * The cut is at the first pair that does not fit: every pair before it fitted in the room then
   * left, and is short enough to be read back.
   */
  lemma {:induction false} CutAtFirstMisfit(pairs: seq<Pair>, room: nat)
    ensures |ParamBytes(pairs[..FitCount(pairs, room)])| <= room
    ensures var n := FitCount(pairs, room);
            n < |pairs| ==> !Fits(room - |ParamBytes(pairs[..n])|, pairs[n])
    ensures room <= TWO31 ==> Encodable(pairs[..FitCount(pairs, room)])
    decreases |pairs|
  {
    var n := FitCount(pairs, room);
    FittingAreSmall(pairs, room);
    if n == 0 {
      assert pairs[..0] == [];
    } else {
      var rest, room' := pairs[1..], room - PairSize(pairs[0]);
      CutAtFirstMisfit(rest, room');
      assert n == 1 + FitCount(rest, room');
      hide FitCount, PairBytes, Fits, Encodable;
      assert n < |pairs| ==> rest[n - 1] == pairs[n];
      assert pairs[..n] == [pairs[0]] + rest[..n - 1];
      assert pairs[..n][1..] == rest[..n - 1];
    }
  }

  lemma {:induction false} FittingAreSmall(pairs: seq<Pair>, room: nat)
    ensures room <= TWO31 ==> Encodable(pairs[..FitCount(pairs, room)])
    decreases |pairs|
  {
    var n := FitCount(pairs, room);
    if n > 0 && room <= TWO31 {
      PairSmall(pairs[0]);
      var rest := pairs[1..];
      FittingAreSmall(rest, room - PairSize(pairs[0]));
      hide FitCount, PairBytes;
      assert pairs[..n] == [pairs[0]] + rest[..n - 1];
      forall p | p in pairs[..n] ensures |p.key| < TWO31 && |p.value| < TWO31 {
        assert p == pairs[0] || p in rest[..n - 1];
      }
    }
  }

  // ----- what is sent, in plain numbers ---------------------------------------------------------

  /** Pair `i` still fits behind the pairs before it, with eight bytes to spare for its two lengths. */
  ghost predicate HasRoom(pairs: seq<Pair>, i: nat, room: int)
    requires i < |pairs|
  {
    |ParamBytes(pairs[..i])| + 8 + |pairs[i].key| + |pairs[i].value| < room
  }

  lemma {:induction false} CutWhereNoRoom(pairs: seq<Pair>, room: nat)
    ensures var n := FitCount(pairs, room);
            && (forall i: nat :: i < n ==> HasRoom(pairs, i, room))
            && (n < |pairs| ==> !HasRoom(pairs, n, room))
    decreases |pairs|
  {
    var n := FitCount(pairs, room);
    if pairs == [] || n == 0 {
      if pairs != [] {
        assert pairs[..0] == [] && ParamBytes([]) == [];
      }
    } else {
      var rest, room' := pairs[1..], room - PairSize(pairs[0]);
      CutWhereNoRoom(rest, room');
      assert n == 1 + FitCount(rest, room');
      forall i: nat | i < |pairs| ensures HasRoom(pairs, i, room) <==> if i == 0 then Fits(room, pairs[0])
                                                                        else HasRoom(rest, i - 1, room') {
        RoomBehind(pairs, i, room);
      }
    }
  }

  lemma RoomBehind(pairs: seq<Pair>, i: nat, room: int)
    requires i < |pairs|
    ensures HasRoom(pairs, i, room) <==> if i == 0 then room > 8 + |pairs[0].key| + |pairs[0].value|
                                         else HasRoom(pairs[1..], i - 1, room - PairSize(pairs[0]))
  {
    if i == 0 {
      assert pairs[..0] == [] && ParamBytes([]) == [];
    } else {
      assert pairs[..i][0] == pairs[0] && pairs[..i][1..] == pairs[1..][..i - 1];
      PairSmall(pairs[0]);
    }
  }

  /**
   * The request carries the front of the environment that ends before the first pair whose key and
   * value, with eight bytes for the two lengths, leave no room in the 4072 bytes that are left of
   * 4096 behind the begin record and a header; that front and no other.
   */
  lemma SentIff(pairs: seq<Pair>, n: nat)
    requires n <= |pairs|
    ensures Sent(pairs) == pairs[..n] <==>
              && (forall i: nat :: i < n ==> HasRoom(pairs, i, 4072))
              && (n < |pairs| ==> !HasRoom(pairs, n, 4072))
  {
    CutWhereNoRoom(pairs, 4072);
    hide FitCount, HasRoom;
    var k := FitCount(pairs, 4072);
    assert |pairs[..n]| == n && |pairs[..k]| == k;
  }

  /** The most that the pairs can take. */
  function Demand(pairs: seq<Pair>): nat {
    if pairs == [] then 0 else 8 + |pairs[0].key| + |pairs[0].value| + Demand(pairs[1..])
  }

  lemma {:induction false} DemandAbove(pairs: seq<Pair>, i: nat, room: int)
    requires i < |pairs| && Demand(pairs) < room
    ensures HasRoom(pairs, i, room)
    decreases i
  {
    hide ParamBytes, HasRoom;
    RoomBehind(pairs, i, room);
    PairSmall(pairs[0]);
    if i > 0 {
      DemandAbove(pairs[1..], i - 1, room - PairSize(pairs[0]));
    }
  }

  /** An environment below 4072 bytes, counting eight for the lengths of each pair, is sent whole. */
  lemma SmallIsSentWhole(pairs: seq<Pair>)
    requires Demand(pairs) < 4072
    ensures Sent(pairs) == pairs
  {
    hide FitCount, HasRoom;
    SentIff(pairs, |pairs|);
    forall i: nat | i < |pairs| ensures HasRoom(pairs, i, 4072) {
      DemandAbove(pairs, i, 4072);
    }
  }

  lemma {:induction false} DemandHolds(pairs: seq<Pair>)
    ensures |ParamBytes(pairs)| <= Demand(pairs)
  {
    if pairs != [] {
      PairSmall(pairs[0]);
      DemandHolds(pairs[1..]);
    }
  }

  /** Such an environment of at most 4048 bytes is prepared, for every id but 0. */
  lemma SmallIsPrepared(pairs: seq<Pair>)
    requires Demand(pairs) <= 4048
    ensures Sent(pairs) == pairs && ParamsEnd(pairs) + 16 < 4096
  {
    hide FitCount, ParamBytes, Demand;
    SmallIsSentWhole(pairs);
    DemandHolds(pairs);
  }

  /** What was sent, read back from the params record. */
  method ReadSent(b: seq<byte>, id: uint16, keepAlive: bool, ghost pairs: seq<Pair>) returns (sent: seq<Pair>)
    requires IsRequest(b, id, keepAlive, Sent(pairs))
    ensures sent == Sent(pairs) && sent <= pairs
  {
    hide FitCount, ParamBytes, Tail;
    CutAtFirstMisfit(pairs, BUFFER_SIZE - 24);
    var ps := Packets(b);
    sent := ReadPairs(Body(ps[1]), Sent(pairs));
  }
}
