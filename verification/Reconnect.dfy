/** What a refused record does to the next connection of its slot. */
module Reconnect {
  import opened Bytes
  import opened Protocol
  import opened Records
  import opened Chunks
  import opened Requests
  import opened World
  import opened Fastcgi
  import opened Receive
  import opened Ring
  import Handlers
  import Prepare

  lemma PacketsFrom(p: Packet, rest: seq<byte>)
    ensures Packets(p + rest) == [p] + Packets(rest) && Tail(p + rest) == Tail(rest)
  {
    PrefixHeader(p, p + rest);
    assert First(p + rest) == p && (p + rest)[|p|..] == rest;
  }

  lemma TwoPackets(p: Packet, u: Packet, rest: seq<byte>)
    ensures Packets(p + u + rest) == [p, u] + Packets(rest)
  {
    hide Packets, Tail;
    PacketsFrom(p, u + rest);
    PacketsFrom(u, rest);
    assert p + (u + rest) == p + u + rest;
  }

  /** A call that got both records in its first read broke off there, and left both unread. */
  lemma FirstCallBroke(log: seq<Packet>, log': seq<Packet>, off: nat, n: nat, p: Packet, u: Packet, f: seq<byte>,
                       k: nat, unread: seq<byte>)
    requires BrokeOff(false, log, log', off, n, [], p + u + f, p + u + f, k, unread) && !Known(off, n, u)
    ensures k == 0 && unread == p + u + f && |log'| > |log| && log <= log' && log'[|log|] == p
  {
    hide Packets, Tail, Known, ReadHeader;
    var x, ps := p + u + f, [p, u] + Packets(f);
    assert [] + x == x;
    TwoPackets(p, u, f);
    assert !AllKnown(off, n, ps) by { assert ps[1] == u; }
    WholeCut(x, k);
  }

  lemma WholeCut(x: seq<byte>, k: nat)
    ensures k <= |x| && x <= x[..k] ==> [] + x[..k] == x
  {}

  lemma NotCompleted(log: seq<Packet>, log': seq<Packet>, off: nat, n: nat, p: Packet, u: Packet, f: seq<byte>)
    requires !Known(off, n, u)
    ensures !Completed(log, log', off, n, [] + (p + u + f))
  {
    hide Packets, Tail, Known, ReadHeader;
    assert [] + (p + u + f) == p + u + f;
    TwoPackets(p, u, f);
    assert ([p, u] + Packets(f))[1] == u;
  }

  /** Whatever the next call comes to, its first record is the first one left unread. */
  lemma HandedOverAgain(stale: bool, log: seq<Packet>, log': seq<Packet>, ok: bool, off: nat, n: nat, p: Packet,
                        u: Packet, f: seq<byte>, first: seq<byte>, received: seq<byte>, k: nat, unread: seq<byte>)
    requires ok ==> Completed(log, log', off, n, p + u + f + received)
    requires !ok ==> BrokeOff(stale, log, log', off, n, p + u + f, first, received, k, unread)
    requires !ok ==> |log'| > |log|
    ensures |log'| > |log| && log <= log' && log'[|log|] == p
  {
    hide Packets, Tail, AllKnown;
    TwoPackets(p, u, f + received);
    assert p + u + f + received == p + u + (f + received);
    if !ok {
      BrokeOffLogs(stale, log, log', off, n, p + u + f, first, received, k, unread);
    }
  }

  lemma OneRead(b: seq<byte>)
    ensures ToCome([Data(b)]) == b
  {
    assert [Data(b)][1..] == [];
    assert ToCome([]) == [];
  }

  /** The slot of a closing connection, when it is the first free one of its location, is taken again. */
  lemma SameSlotAgain(cs: seq<Conn>, cs': seq<Conn>, i: nat, sock: int)
    requires i < |cs| && cs[i].state == Free && sock != -1 && Handlers.Opens(cs, cs', cs[i].locationId, sock)
    requires forall j :: 0 <= j < i ==> !Handlers.Suits(cs[j], {Free}, cs[i].locationId)
    ensures cs' == cs[i := cs[i].(fd := sock, state := Ready)]
  {
    assert Handlers.Suits(cs[i], {Free}, cs[i].locationId);
  }

  /** The connection on slot `i` gets `p`, `u` and `f` in one read, is hung up and replaced on the same slot. */
  method RefusedAndReplaced(ctx: Context, i: nat, p: Packet, u: Packet, f: seq<byte>, sock: int)
    returns (server: Socket)
    requires ctx.Inv() && i < |ctx.conns| && ctx.conns[i].state == Receiving && sock >= 0
    requires Unread(ctx.heap, ctx.conns[i]) == [] && |p + u + f| <= FirstRoom(ctx.heap, ctx.conns[i])
    requires !Known(ctx.rl.idOffset, |ctx.rl.rs|, u) && TimelyAll(ctx.Now(), i, Packets(p + u + f))
    requires forall j :: 0 <= j < |ctx.conns| ==> ctx.conns[j].fd != sock
    requires forall j :: 0 <= j < i ==> !Handlers.Suits(ctx.conns[j], {Free}, ctx.conns[i].locationId)
    modifies ctx`heap, ctx`nextId, ctx`track, ctx`log, ctx`conns, ctx.rl`rs, ctx.rl`entries, ctx.rl`hand
    ensures server.taken == p + u + f && ctx.Inv() && |ctx.conns| == |old(ctx.conns)|
    ensures ctx.conns[i].state == Ready && ctx.conns[i].fd == sock && StaysTimely(old(ctx.Now()), ctx.Now(), i)
    ensures Unread(ctx.heap, ctx.conns[i]) == p + u + f
    ensures Room(ctx.heap, ctx.conns[i]) == old(FirstRoom(ctx.heap, ctx.conns[i])) - |p + u + f|
    ensures |ctx.log| > |old(ctx.log)| && old(ctx.log) <= ctx.log && ctx.log[|old(ctx.log)|] == p
  {
    hide Good, IsPowerOf2, Packets, Tail, TimelyAll, StaysTimely, FreedAt, Completed, BrokeOff, WildOnlyIf, Snug,
      AllData, Known, AllKnown, ReadHeader, PacketSize, Unread, Room, Timely, Handlers.Opens, Handlers.Suits, ToCome;
    ghost var s, x := ctx.Now(), p + u + f;
    server := new Socket([Data(p + u + f)]);
    OneRead(x);
    assert KeptAtCall(ctx.heap, ctx.conns[i], server.HasData()) == [];
    assert [] + x == x;
    var ok, wild; ghost var first, received, k;
    ok, wild, first, received, k := RecvResponse(ctx, i, server);
    StaysInRange(s, ctx.Now(), i);
    assert received == x == first;
    NotCompleted(s.log, ctx.log, ctx.rl.idOffset, |ctx.rl.rs|, p, u, f);
    assert !ok;
    FirstCallBroke(s.log, ctx.log, ctx.rl.idOffset, |ctx.rl.rs|, p, u, f, k, Unread(ctx.heap, ctx.conns[i]));
    ghost var cs, s1 := ctx.conns, ctx.Now();
    Handlers.HangupConn(ctx, i, sock);
    SameSlotAgain(cs[i := cs[i].(fd := -1, state := Free)], ctx.conns, i, sock);
    SameUnread(ctx.heap, cs[i], ctx.conns[i]);
    TimelyConns(s1, ctx.Now(), i);
    StaysTrans(s, s1, ctx.Now(), i);
  }

  /**
   * On a receiving connection, in one read, come a record `p` and a record `u` for a request that
   * does not exist; the connection is hung up and replaced, and the new one delivers `z`. Then `p`,
   * which its server sent once, has been handed over twice.
   */
  method Repeats(ctx: Context, i: nat, p: Packet, u: Packet, z: seq<byte>, sock: int)
    returns (server: Socket, next: Socket, ghost again: nat)
    requires ctx.Inv() && i < |ctx.conns| && ctx.conns[i].state == Receiving && sock >= 0 && z != []
    requires Unread(ctx.heap, ctx.conns[i]) == []
    requires |p| + |u| + HEADER_LEN <= FirstRoom(ctx.heap, ctx.conns[i])
    requires !Known(ctx.rl.idOffset, |ctx.rl.rs|, u) && TimelyAll(ctx.Now(), i, Packets(p + u + z))
    requires forall j :: 0 <= j < |ctx.conns| ==> ctx.conns[j].fd != sock
    requires forall j :: 0 <= j < i ==> !Handlers.Suits(ctx.conns[j], {Free}, ctx.conns[i].locationId)
    modifies ctx`heap, ctx`nextId, ctx`track, ctx`log, ctx`conns, ctx.rl`rs, ctx.rl`entries, ctx.rl`hand
    ensures server.taken == p + u && next.taken <= z
    ensures |old(ctx.log)| < again < |ctx.log| && ctx.log[|old(ctx.log)|] == p == ctx.log[again]
  {
    hide Good, IsPowerOf2, Packets, Tail, TimelyAll, StaysTimely, FreedAt, Completed, BrokeOff, WildOnlyIf, Snug, Known,
      AllKnown, ReadHeader, PacketSize, Unread, Room, Timely, Handlers.Suits, ToCome;
    ghost var s := ctx.Now();
    assert p + u + [] == p + u;
    TimelyPrefix(s, i, p + u, z);
    server := RefusedAndReplaced(ctx, i, p, u, [], sock);
    ghost var now, log := ctx.Now(), ctx.log;
    next := new Socket([Data(z)]);
    OneRead(z);
    assert KeptAtCall(ctx.heap, ctx.conns[i], next.HasData()) == p + u;
    TimelyAllCarries(s, now, i, Packets(p + u + z));
    var ok, wild; ghost var first, received, k;
    ok, wild, first, received, k := RecvResponse(ctx, i, next);
    HandedOverAgain(false, log, ctx.log, ok, ctx.rl.idOffset, |ctx.rl.rs|, p, u, [], first, received, k,
                    Unread(ctx.heap, ctx.conns[i]));
    again := |log|;
  }

  /**
   * The same when the first read left no room for a header behind the records: if the new
   * connection has nothing to read, its call parses the old chunk. Then `p` is handed over again,
   * or the call reads a freed chunk.
   */
  method RepeatsWithoutData(ctx: Context, i: nat, p: Packet, u: Packet, f: seq<byte>, sock: int)
    returns (server: Socket, wild: bool, ghost again: nat)
    requires ctx.Inv() && i < |ctx.conns| && ctx.conns[i].state == Receiving && sock >= 0
    requires Unread(ctx.heap, ctx.conns[i]) == []
    requires |p + u + f| <= FirstRoom(ctx.heap, ctx.conns[i]) < |p + u + f| + HEADER_LEN
    requires !Known(ctx.rl.idOffset, |ctx.rl.rs|, u) && TimelyAll(ctx.Now(), i, Packets(p + u + f))
    requires forall j :: 0 <= j < |ctx.conns| ==> ctx.conns[j].fd != sock
    requires forall j :: 0 <= j < i ==> !Handlers.Suits(ctx.conns[j], {Free}, ctx.conns[i].locationId)
    modifies ctx`heap, ctx`nextId, ctx`track, ctx`log, ctx`conns, ctx.rl`rs, ctx.rl`entries, ctx.rl`hand
    ensures server.taken == p + u + f && |ctx.log| > |old(ctx.log)| && ctx.log[|old(ctx.log)|] == p
    ensures wild || (|old(ctx.log)| < again < |ctx.log| && ctx.log[again] == p)
  {
    hide Good, IsPowerOf2, Packets, Tail, TimelyAll, StaysTimely, FreedAt, Completed, BrokeOff, WildOnlyIf, Snug, Known,
      AllKnown, ReadHeader, PacketSize, Unread, Room, Timely, Handlers.Suits, ToCome;
    ghost var s, x := ctx.Now(), p + u + f;
    server := RefusedAndReplaced(ctx, i, p, u, f, sock);
    ghost var now, log := ctx.Now(), ctx.log;
    var next := new Socket([]);
    NothingToCome();
    assert KeptAtCall(ctx.heap, ctx.conns[i], next.HasData()) == x;
    assert x + [] == x;
    TimelyAllCarries(s, now, i, Packets(x));
    ghost var stale := ParsesOld(ctx.heap, ctx.conns[i], next.HasData());
    var ok; ghost var first, received, k;
    ok, wild, first, received, k := RecvResponse(ctx, i, next);
    again := |log|;
    if !wild {
      HandedOverAgain(stale, log, ctx.log, ok, ctx.rl.idOffset, |ctx.rl.rs|, p, u, f, first, received, k,
                      Unread(ctx.heap, ctx.conns[i]));
    }
  }

  // ----- the same, from the start of a worker -----------------------------------------------------------

  /** A record without padding. */
  function Record(kind: byte, id: uint16, body: seq<byte>): (p: Packet)
    requires |body| < TWO16
    ensures ReadHeader(p) == Header(1, kind, id, |body|, 0) && Body(p) == body && |p| == HEADER_LEN + |body|
  {
    var h := Header(1, kind, id, |body|, 0);
    var front := HeaderBytes(h) + [0];
    HeaderRoundTrip(h, 0);
    PrefixHeader(front, front + body);
    front + body
  }

  lemma TwoIsPower()
    ensures IsPowerOf2(2)
  {
    assert And(1, 0) == 0;
  }

  /** Of two available slots, with the hand on slot 0, slot 1 comes first. */
  lemma SlotOneFirst(rs: seq<Request>, r: nat)
    requires |rs| == 2 && rs[0].state == Available && rs[1].state == Available
    requires FirstFrom(0, 2, r, AvailableSlots(rs))
    ensures r == 1
  {
    assert 1 in AvailableSlots(rs);
    assert Distance(0, 1, 2) == 1 && Distance(0, 0, 2) == 2;
  }

  lemma EmptyEnvironmentFits()
    ensures Handlers.Preparable(1, [])
  {
    assert Prepare.Sent([]) == [];
  }

  /** A worker with one connection, on which the request of client 7 has just been sent whole. */
  method SentRequest() returns (ctx: Context)
    ensures fresh(ctx) && fresh(ctx.rl) && ctx.Inv() && ctx.log == [] && ctx.rl.idOffset == 0 && |ctx.rl.rs| == 2
    ensures ctx.conns == [Conn(Receiving, 5, 0, 0, 0, None, None)]
    ensures |ctx.track| == 2 && ctx.track[1].since == Some(0)
  {
    hide Good, IsPowerOf2;
    TwoIsPower();
    ctx := new Context([Conn(Free, -1, 0, 0, 0, None, None)], 1, 0, 2);
    AssignIt(ctx);
    ConnectIt(ctx);
    SendIt(ctx);
  }

  method AssignIt(ctx: Context)
    requires ctx.Inv() && |ctx.rl.rs| == 2 && |ctx.rl.hands| == 1 && ctx.rl.hands[0] == 0 && ctx.rl.idOffset == 0
    requires ctx.rl.rs[0] == NEW_REQUEST && ctx.rl.rs[1] == NEW_REQUEST
    modifies ctx`track, ctx.rl`rs, ctx.rl`entries, ctx.rl`hand
    ensures ctx.Inv() && |ctx.rl.rs| == 2
    ensures ctx.rl.rs[0].state == Available && ctx.rl.rs[1].state == Assigned && ctx.rl.rs[1].clockId == 0
  {
    hide Good, IsPowerOf2, Prepare.IsRequest, Handlers.Preparable, FirstFrom;
    ghost var rs := ctx.rl.rs;
    assert FdSlots(rs, 7) == {};
    assert 0 in AvailableSlots(rs);
    var t := Handlers.Assign(ctx, 7, 0, true, []);
    SlotOneFirst(rs, t.r);
    EmptyEnvironmentFits();
  }

  method ConnectIt(ctx: Context)
    requires ctx.Inv() && ctx.conns == [Conn(Free, -1, 0, 0, 0, None, None)]
    modifies ctx`conns
    ensures ctx.Inv() && ctx.conns == [Conn(Ready, 5, 0, 0, 0, None, None)]
  {
    hide Good, IsPowerOf2;
    assert Handlers.Suits(ctx.conns[0], {Free}, 0);
    var _ := Handlers.NewConnection(ctx, 0, 5);
  }

  method SendIt(ctx: Context)
    requires ctx.Inv() && ctx.conns == [Conn(Ready, 5, 0, 0, 0, None, None)] && ctx.log == [] && |ctx.rl.rs| == 2
    requires ctx.rl.rs[0].state == Available && ctx.rl.rs[1].state == Assigned && ctx.rl.rs[1].clockId == 0
    modifies ctx`heap, ctx`track, ctx`conns, ctx.rl`rs, ctx.rl`entries, ctx.rl`hand, ctx.rl`hands
    ensures ctx.Inv() && |ctx.rl.rs| == 2 && ctx.conns == [Conn(Receiving, 5, 0, 0, 0, None, None)]
    ensures |ctx.track| == 2 && ctx.track[1].since == Some(0)
  {
    hide Good, IsPowerOf2;
    ghost var rs := ctx.rl.rs;
    assert 1 in AssignedSlots(rs, 0) && 0 !in AssignedSlots(rs, 0);
    var r, ok := Handlers.StartSend(ctx, 0, true);
    assert r == Some(1);
    ghost var wire := Handlers.SendPart(ctx, 0, ctx.conns[0].remain);
    Handlers.GoodSizes(ctx.Now());
  }

  /** A STDOUT record for the request that was sent, then a record for no request; and what is logged. */
  method RepeatExample() returns (ctx: Context, server: Socket, next: Socket, ghost again: nat)
    ensures var p, u := Record(STDOUT, 1, [65]), Record(STDOUT, 9, []);
            && server.taken == p + u && next.taken <= [0]
            && 0 < again < |ctx.log| && ctx.log[0] == p == ctx.log[again]
  {
    hide Good, IsPowerOf2, Packets, Timely, TimelyAll, Known, PacketSize, ReadHeader, Body;
    ctx := SentRequest();
    var p, u := Record(STDOUT, 1, [65]), Record(STDOUT, 9, []);
    TooShort([0]);
    ExampleFull(ctx.Now(), p, u, [0]);
    server, next, again := Repeats(ctx, 0, p, u, [0], 6);
  }

  /** The read that brings them fills the chunk with the front of a large record. */
  method RepeatWithoutDataExample() returns (ctx: Context, wild: bool, ghost again: nat)
    ensures var p := Record(STDOUT, 1, [65]);
            && |ctx.log| > 0 && ctx.log[0] == p
            && (wild || (0 < again < |ctx.log| && ctx.log[again] == p))
  {
    hide Good, IsPowerOf2, Packets, Timely, TimelyAll, Known, PacketSize, ReadHeader, Body, Complete, Need, Tail;
    ctx := SentRequest();
    var p, u, big := Record(STDOUT, 1, [65]), Record(STDOUT, 9, []), Record(STDOUT, 1, seq(20000, _ => 7));
    NoRecordYet(big, CHUNK_DATA - 17);
    ExampleFull(ctx.Now(), p, u, big[..CHUNK_DATA - 17]);
    var server;
    server, wild, again := RepeatsWithoutData(ctx, 0, p, u, big[..CHUNK_DATA - 17], 6);
  }

  lemma ExampleFull(s: Snapshot, p: Packet, u: Packet, f: seq<byte>)
    requires s.off == 0 && |s.reqs| == 2 == |s.track| && |s.conns| == 1 && s.track[1].since.Some? && Packets(f) == []
    requires ReadHeader(p).kind == STDOUT && ReadHeader(p).reqId == 1 && ReadHeader(u).reqId == 9
    ensures TimelyAll(s, 0, Packets(p + u + f)) && !Known(s.off, |s.reqs|, u)
  {
    TwoPackets(p, u, f);
    hide Packets, ReadHeader;
  }

  // ----- a chunk that is read after it was freed ---------------------------------------------------------

  /** The first `m` bytes of a record hold no whole record. */
  lemma NoRecordYet(p: Packet, m: nat)
    requires m < |p|
    ensures Packets(p[..m]) == [] && Tail(p[..m]) == p[..m] && !Complete(p[..m])
    ensures HEADER_LEN <= m ==> Need(p[..m]) == |p|
  {
    CutShort(p, m);
    if HEADER_LEN <= m {
      PrefixHeader(p[..m], p);
    }
  }

  /** The first `n` bytes of a record arrive: they are left unread in a chunk made to their measure. */
  method PartArrives(ctx: Context, i: nat, p: Packet, n: nat)
    requires ctx.Inv() && i < |ctx.conns| && ctx.conns[i].state != Free && Unread(ctx.heap, ctx.conns[i]) == []
    requires 0 < n < |p|
    modifies ctx`heap, ctx`nextId, ctx`track, ctx`log, ctx`conns, ctx.rl`rs, ctx.rl`entries, ctx.rl`hand
    ensures ctx.Inv() && |ctx.conns| == |old(ctx.conns)| && ctx.conns[i].state != Free && ctx.log == old(ctx.log)
    ensures Unread(ctx.heap, ctx.conns[i]) == p[..n] && Room(ctx.heap, ctx.conns[i]) == SizeFor(p[..n]) - n
    ensures ctx.conns[i].chunk.Some? && ctx.conns[i].chunk.value in ctx.heap
    ensures ctx.heap[ctx.conns[i].chunk.value].refs == 1
  {
    hide Good, IsPowerOf2, Packets, Tail, StaysTimely, FreedAt, BrokeOff, WildOnlyIf, AllKnown, ReadHeader, PacketSize,
      Unread, Room, Timely, ToCome, Complete, Need;
    ghost var s, part := ctx.Now(), p[..n];
    var server := new Socket([Data(p[..n])]);
    OneRead(part);
    NoRecordYet(p, n);
    assert KeptAtCall(ctx.heap, ctx.conns[i], server.HasData()) == [];
    assert [] + part == part;
    var ok, wild; ghost var first, received, k;
    ok, wild, first, received, k := RecvResponse(ctx, i, server);
    PartIsNoRecord(p, n, received, ToCome(server.script));
    if !ok {
      BrokeOffLogs(false, s.log, ctx.log, ctx.rl.idOffset, |ctx.rl.rs|, [], first, received, k,
                   Unread(ctx.heap, ctx.conns[i]));
      assert false;
    }
  }

  lemma PartIsNoRecord(p: Packet, n: nat, received: seq<byte>, rest: seq<byte>)
    requires n < |p| && received + rest == p[..n]
    ensures Packets([] + received) == [] && Tail([] + received) == received
  {
    hide Packets, Tail;
    NoRecordYet(p, |received|);
    assert received == p[..n][..|received|] == p[..|received|];
    assert [] + received == received;
  }

  /** If there is room for a header and the next call reads nothing, these bytes are lost. */
  method LosesPart(ctx: Context, i: nat, p: Packet, n: nat)
    requires ctx.Inv() && i < |ctx.conns| && ctx.conns[i].state != Free && Unread(ctx.heap, ctx.conns[i]) == []
    requires 0 < n < |p| && SizeFor(p[..n]) - n >= HEADER_LEN
    modifies ctx`heap, ctx`nextId, ctx`track, ctx`log, ctx`conns, ctx.rl`rs, ctx.rl`entries, ctx.rl`hand
    ensures ctx.Inv() && |ctx.conns| == |old(ctx.conns)| && ctx.log == old(ctx.log)
    ensures Unread(ctx.heap, ctx.conns[i]) == []
  {
    hide Good, IsPowerOf2, Packets, Tail, StaysTimely, FreedAt, BrokeOff, AllKnown, ReadHeader, PacketSize, Unread,
      Room, Timely, ToCome, Complete, Need, SizeFor;
    PartArrives(ctx, i, p, n);
    ghost var s, part := ctx.Now(), p[..n];
    var socket := new Socket([]);
    NothingToCome();
    NoRecordYet(p, n);
    assert part + [] == part;
    ghost var stale := ParsesOld(ctx.heap, ctx.conns[i], socket.HasData());
    var ok, wild; ghost var first, received, k;
    ok, wild, first, received, k := RecvResponse(ctx, i, socket);
    if !ok {
      BrokeOffLogs(stale, s.log, ctx.log, ctx.rl.idOffset, |ctx.rl.rs|, part, first, received, k,
                   Unread(ctx.heap, ctx.conns[i]));
      assert false;
    }
  }

  /** From the start of a worker: four bytes of a record, and then a read without data. */
  method LostPartExample() returns (ctx: Context)
    ensures ctx.log == [] && |ctx.conns| == 1 && Unread(ctx.heap, ctx.conns[0]) == []
  {
    ctx := SentRequest();
    LosesPart(ctx, 0, Record(STDOUT, 1, [65]), 4);
  }

  /** If there is none and the next call reads nothing, it parses the chunk that it has just freed. */
  method ReadsFreedChunk(ctx: Context, i: nat, p: Packet, n: nat) returns (wild: bool)
    requires ctx.Inv() && i < |ctx.conns| && ctx.conns[i].state != Free && Unread(ctx.heap, ctx.conns[i]) == []
    requires HEADER_LEN <= n < |p| < n + HEADER_LEN && |p| > CHUNK_DATA
    modifies ctx`heap, ctx`nextId, ctx`track, ctx`log, ctx`conns, ctx.rl`rs, ctx.rl`entries, ctx.rl`hand
    ensures wild
  {
    hide Good, IsPowerOf2, Packets, Tail, StaysTimely, FreedAt, ReadHeader, PacketSize, Timely, ToCome, Complete, Need;
    PartArrives(ctx, i, p, n);
    var socket := new Socket([]);
    NothingToCome();
    NoRecordYet(p, n);
    assert p[..n] + [] == p[..n];
    var open; ghost var received;
    open, wild, received := Handlers.EventRead(ctx, i, socket, -1);
  }

  /** From the start of a worker: 8995 bytes of a 9000-byte record, and then a read without data. */
  method FreedChunkExample() returns (wild: bool)
    ensures wild
  {
    var ctx := SentRequest();
    var p := Record(STDOUT, 1, seq(8992, _ => 7));
    wild := ReadsFreedChunk(ctx, 0, p, 8995);
  }
}
