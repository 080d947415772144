/** fcgi_recv_response (plugins/fastcgi/fastcgi.c) and fcgi_fd_set_chunk (plugins/fastcgi/fcgi_fd.c). */
module Receive {
  import opened Bytes
  import opened Protocol
  import opened Records
  import opened Chunks
  import opened Requests
  import opened World
  import opened Fastcgi
  import opened Ring

  // ----- the socket -----------------------------------------------------------------------------

  /** What a read on the socket may come to. */
  datatype ReadEvent = Data(bytes: seq<byte>) | Eof | WouldBlock | Broken

  /** A socket with an arbitrary future: the results its reads will have. */
  class Socket {
    var script: seq<ReadEvent>
    ghost var taken: seq<byte>   // the bytes read so far

    ghost predicate Valid()
      reads this
    {
      forall k :: 0 <= k < |script| && script[k].Data? ==> script[k].bytes != []
    }

    constructor (future: seq<ReadEvent>)
      requires forall k :: 0 <= k < |future| && future[k].Data? ==> future[k].bytes != []
      ensures Valid() && script == future && taken == []
    {
      script, taken := future, [];
    }

    /** Whether the next read returns bytes. */
    predicate HasData()
      reads this
    {
      script != [] && script[0].Data?
    }

    /** A read of at most `max` bytes; longer data is left for the next read. */
    method Read(max: nat) returns (e: ReadEvent)
      requires Valid() && max > 0
      modifies this
      ensures Valid()
      ensures e.Data? <==> old(HasData())
      ensures e.Data? ==> 0 < |e.bytes| <= max && taken == old(taken) + e.bytes
      ensures e.Data? ==> e.bytes + ToCome(script) == ToCome(old(script))
      ensures e.Data? ==> Size(script) < Size(old(script))
      ensures e.Data? && |old(script)[0].bytes| <= max ==> e.bytes == old(script)[0].bytes
      ensures !e.Data? ==> e == if old(script) == [] then WouldBlock else old(script)[0]
      ensures AllData(old(script)) ==> AllData(script)
      ensures !e.Data? ==> taken == old(taken) && ToCome(script) == ToCome(old(script))
    {
      if script == [] {
        return WouldBlock;
      }
      e := script[0];
      if e.Data? && |e.bytes| > max {
        var rest := Data(e.bytes[max..]);
        assert ([rest] + script[1..])[1..] == script[1..];
        assert e.bytes == e.bytes[..max] + e.bytes[max..];
        script := [rest] + script[1..];
        e := Data(e.bytes[..max]);
      } else {
        script := script[1..];
      }
      if e.Data? {
        taken := taken + e.bytes;
      }
    }
  }

  /** The socket only ever has bytes, or nothing yet. */
  predicate AllData(script: seq<ReadEvent>) {
    forall k :: 0 <= k < |script| ==> script[k].Data?
  }

  /** All the bytes a script will yield. */
  function ToCome(script: seq<ReadEvent>): seq<byte> {
    if script == [] then []
    else (if script[0].Data? then script[0].bytes else []) + ToCome(script[1..])
  }

  function Size(script: seq<ReadEvent>): nat {
    if script == [] then 0
    else (if script[0].Data? then |script[0].bytes| else 0) + 1 + Size(script[1..])
  }

  // ----- chunks -----------------------------------------------------------------------------------

  /** The bytes of a connection's chunk that have not been parsed. */
  function Unread(h: Heap, c: Conn): seq<byte> {
    if c.chunk.Some? && c.chunk.value in h && h[c.chunk.value].read <= h[c.chunk.value].write <= |h[c.chunk.value].data|
    then h[c.chunk.value].data[h[c.chunk.value].read..h[c.chunk.value].write] else []
  }

  /** The free space of a connection's chunk. */
  function Room(h: Heap, c: Conn): int {
    if c.chunk.Some? && c.chunk.value in h then |h[c.chunk.value].data| - h[c.chunk.value].write else 0
  }

  /** The last `n` bytes written to a chunk. */
  function LastWritten(c: Chunk, n: nat): seq<byte>
    requires n <= c.write <= |c.data|
  {
    c.data[c.write - n..c.write]
  }

  /** The space checks of fcgi_fd_set_chunk. */
  ghost predicate MayInherit(h: Heap, c: Conn, size: nat, inherit: nat) {
    inherit > 0 ==> c.chunk.Some? && c.chunk.value in h && inherit <= h[c.chunk.value].write && inherit < size
  }

  /** A connection has let go of its chunk: it is still there exactly when somebody else holds it. */
  ghost predicate LetGoOf(h: Heap, chunk: Option<ChunkId>, h': Heap) {
    chunk.Some? ==>
      && chunk.value in h && (chunk.value in h' <==> h[chunk.value].refs > 1)
      && (chunk.value in h' ==> h'[chunk.value] == h[chunk.value].(refs := h[chunk.value].refs - 1))
  }

  /** chunk_new and fcgi_fd_set_chunk: a new chunk that begins with the last bytes of the old one. */
  method NewChunk(ctx: Context, i: nat, size: nat, inherit: nat) returns (ok: bool, a: ChunkId)
    requires ctx.Inv() && i < |ctx.conns|
    modifies ctx`heap, ctx`nextId, ctx`conns
    ensures ok <==> MayInherit(old(ctx.heap), old(ctx.conns[i]), size, inherit)
    ensures ok ==> ctx.Inv() && ctx.conns == old(ctx.conns)[i := old(ctx.conns)[i].(chunk := Some(a))]
    ensures ok ==> a in ctx.heap && ctx.heap[a].read == 0 && ctx.heap[a].write == inherit && |ctx.heap[a].data| == size
    ensures ok ==> ctx.heap[a].refs == 1 && LetGoOf(old(ctx.heap), old(ctx.conns[i].chunk), ctx.heap)
    ensures ok && inherit > 0 ==>
              && old(ctx.conns[i].chunk.Some?) && old(ctx.conns[i].chunk.value in ctx.heap)
              && inherit <= old(ctx.heap[ctx.conns[i].chunk.value].write)
                         <= |old(ctx.heap[ctx.conns[i].chunk.value].data)|
              && ctx.heap[a].data[..inherit] == LastWritten(old(ctx.heap[ctx.conns[i].chunk.value]), inherit)
  {
    hide Good, IsPowerOf2, HeapOk, RefsMatch, Holders;
    a := ctx.nextId;
    ctx.nextId := ctx.nextId + 1;
    var b := ctx.conns[i].chunk;
    ghost var s := ctx.Now();
    if b.Some? {
      ConnChunkLive(s, i);
      ChunkBounds(s, b.value);
    }
    if inherit > 0 && (b.None? || ctx.heap[b.value].write < inherit || size <= inherit) {
      return false, a;
    }
    var data: seq<byte> := seq(size, _ => 0);   // only what is written is ever looked at
    if inherit > 0 {
      data := LastWritten(ctx.heap[b.value], inherit) + data[inherit..];
      assert data[..inherit] == LastWritten(ctx.heap[b.value], inherit);
    }
    Install(ctx, i, a, Chunk(data, 0, inherit, 1));
    ok := true;
  }

  /** The connection moves to its new chunk and releases the old one. */
  method Install(ctx: Context, i: nat, a: ChunkId, ch: Chunk)
    requires ctx.rl.Valid() && Good(ctx.Now()) && FreshAbove(ctx.heap, a) && ctx.nextId == a + 1 && i < |ctx.conns|
    requires ch.refs == 1 && ch.read <= ch.write <= |ch.data|
    modifies ctx`heap, ctx`conns
    ensures ctx.Inv() && ctx.conns == old(ctx.conns)[i := old(ctx.conns)[i].(chunk := Some(a))]
    ensures a in ctx.heap && ctx.heap[a] == ch && LetGoOf(old(ctx.heap), old(ctx.conns[i].chunk), ctx.heap)
  {
    hide Good, IsPowerOf2, HeapOk, RefsMatch, Holders;
    ghost var s := ctx.Now();
    var b := ctx.conns[i].chunk;
    var h := ctx.heap[a := ch];
    if b.Some? {
      ConnChunkLive(s, i);
      h := Release(h, b.value);
    }
    MoveToChunk(s, i, a, ch, h);
    ctx.heap := h;
    ctx.conns := ctx.conns[i := ctx.conns[i].(chunk := Some(a))];
  }

  lemma ChunkBounds(s: Snapshot, c: ChunkId)
    requires Good(s) && c in s.heap
    ensures s.heap[c].read <= s.heap[c].write <= |s.heap[c].data|
  {
    hide RefsMatch, Holders, ReqsOk, SendingOk;
  }

  /** The bytes of a read are stored after the written part, and the write pointer moves on. */
  method Fill(ctx: Context, c: ChunkId, bytes: seq<byte>)
    requires ctx.Inv() && c in ctx.heap && ctx.heap[c].write + |bytes| <= |ctx.heap[c].data|
    modifies ctx`heap
    ensures ctx.Inv() && c in ctx.heap
    ensures ctx.heap[c] == old(ctx.heap[c]).(
              data := Patch(old(ctx.heap[c].data), old(ctx.heap[c].write), bytes),
              write := old(ctx.heap[c].write) + |bytes|)
  {
    hide Good, IsPowerOf2;
    ChunkBounds(ctx.Now(), c);
    var ch := ctx.heap[c];
    PatchRead(ch.data, ch.write, bytes);
    var ch' := ch.(data := Patch(ch.data, ch.write, bytes), write := ch.write + |bytes|);
    SetChunk(ctx.Now(), c, ch');
    ctx.heap := ctx.heap[c := ch'];
  }

  /** chunk_set_read_ptr. */
  method SetRead(ctx: Context, c: ChunkId, pos: nat)
    requires ctx.Inv() && c in ctx.heap && pos <= ctx.heap[c].write
    modifies ctx`heap
    ensures ctx.Inv() && c in ctx.heap && ctx.heap[c] == old(ctx.heap[c]).(read := pos)
  {
    hide Good, IsPowerOf2;
    ChunkBounds(ctx.Now(), c);
    var ch := ctx.heap[c].(read := pos);
    SetChunk(ctx.Now(), c, ch);
    ctx.heap := ctx.heap[c := ch];
  }

  // ----- parsing ----------------------------------------------------------------------------------

  ghost predicate TimelyAll(s: Snapshot, i: nat, ps: seq<Packet>)
    requires i < |s.conns|
  {
    forall k :: 0 <= k < |ps| ==> Timely(s, i, ps[k])
  }

  lemma TimelyAllCarries(s: Snapshot, s': Snapshot, i: nat, ps: seq<Packet>)
    requires StaysTimely(s, s', i) && TimelyAll(s, i, ps)
    ensures TimelyAll(s', i, ps)
  {
    hide StaysTimely, Timely;
    StaysInRange(s, s', i);
    forall k | 0 <= k < |ps| ensures Timely(s', i, ps[k]) {
      TimelyCarries(s, s', i, ps[k]);
    }
  }

  lemma StaysInRange(s: Snapshot, s': Snapshot, i: nat)
    requires StaysTimely(s, s', i)
    ensures i < |s.conns| == |s'.conns| && |s'.reqs| == |s.reqs| && s'.off == s.off
  {}

  lemma StaysTrans(a: Snapshot, b: Snapshot, c: Snapshot, i: nat)
    requires StaysTimely(a, b, i) && StaysTimely(b, c, i)
    ensures StaysTimely(a, c, i)
  {
    hide Whole, MayTurn;
    forall j | 0 <= j < |a.conns| ensures SendsAsBefore(a.conns[j], c.conns[j]) {
      assert SendsAsBefore(a.conns[j], b.conns[j]) && SendsAsBefore(b.conns[j], c.conns[j]);
    }
  }

  /** The record is for a request of the list. */
  predicate Known(off: nat, n: nat, p: Packet) { off <= ReadHeader(p).reqId < off + n }

  ghost predicate AllKnown(off: nat, n: nat, ps: seq<Packet>) {
    forall k :: 0 <= k < |ps| ==> Known(off, n, ps[k])
  }

  /** What a handled run of records leaves alone. */
  ghost predicate SameConn(cs: seq<Conn>, cs': seq<Conn>, i: nat) {
    && i < |cs| == |cs'| && cs' == cs[i := cs[i].(state := cs'[i].state)]
    && (cs'[i].state == cs[i].state || cs'[i].state == Ready || cs'[i].state == Closing)
  }

  /** If chunk `c` is still there, `u` is what is written in it from `pos` on. */
  ghost predicate Holds(h: Heap, c: ChunkId, pos: nat, u: seq<byte>) {
    c in h ==> pos + |u| == h[c].write <= |h[c].data| && h[c].data[pos..h[c].write] == u
  }

  /** What a record that begins with `u` needs, as far as `u` tells. */
  ghost function Need(u: seq<byte>): nat { if |u| < HEADER_LEN then HEADER_LEN else PacketSize(u) }

  /**
   * The inner loop: the packets at `start` in chunk `c` go to the handler, and the length of the
   * incomplete rest is what the next chunk inherits. The chunk need not be the connection's own;
   * when a header is to be read and the chunk has been freed, the loop is `wild`.
   */
  method ParsePackets(ctx: Context, i: nat, c: ChunkId, start: nat, n: nat, pkgSize: nat, ghost u: seq<byte>)
    returns (ok: bool, wild: bool, inherit: nat, pkg: nat)
    requires ctx.Inv() && i < |ctx.conns| && ctx.conns[i].state != Free && |u| == n
    requires Holds(ctx.heap, c, start, u) && TimelyAll(ctx.Now(), i, Packets(u))
    modifies ctx`heap, ctx`track, ctx`log, ctx`conns, ctx.rl`rs, ctx.rl`entries, ctx.rl`hand
    ensures ctx.InvFreed(i) && (ok || wild ==> ctx.Inv())
    ensures SameConn(old(ctx.conns), ctx.conns, i) && |ctx.rl.rs| == |old(ctx.rl.rs)|
    ensures SameBytes(old(ctx.heap), ctx.heap) && StaysTimely(old(ctx.Now()), ctx.Now(), i)
    ensures ctx.conns[i].chunk == Some(c) && old(c in ctx.heap) ==> c in ctx.heap && !wild
    ensures wild ==> !ok && |u| >= HEADER_LEN && (old(c in ctx.heap) ==> Complete(u))
    ensures |u| >= HEADER_LEN && old(c !in ctx.heap) ==> wild && ctx.log == old(ctx.log)
    ensures ok ==> ctx.log == old(ctx.log) + Packets(u) && inherit == |Tail(u)|
    ensures ok && inherit > 0 ==> pkg == Need(Tail(u))
    ensures ok ==> AllKnown(ctx.rl.idOffset, |ctx.rl.rs|, Packets(u))
    ensures !ok ==> old(ctx.log) <= ctx.log <= old(ctx.log) + Packets(u) && (!wild ==> |old(ctx.log)| < |ctx.log|)
  {
    hide Good, IsPowerOf2, Packets, Tail, TimelyAll, StaysTimely, PacketSize, ReadHeader, Patch, Parsed, Complete,
      FreedAt, Known, SameBytes, Holds, AllKnown, Need, First, SameConn;
    ghost var s := ctx.Now();
    ConnSelf(ctx.conns, i);
    KnownNone(ctx.rl.idOffset, |ctx.rl.rs|);
    var pos: nat, len: nat := start, n;
    inherit, pkg, ok, wild := 0, pkgSize, true, false;
    ghost var done: seq<Packet> := [];
    TimelySame(s, s, i);
    SameBytesSelf(s.heap);
    ParsedNothing(u);
    assert u[0..] == u;
    while len > 0
      invariant ctx.Inv() && SameConn(s.conns, ctx.conns, i) && |ctx.rl.rs| == |s.reqs|
      invariant |ctx.conns| == |s.conns| && ctx.conns[i].chunk == s.conns[i].chunk && ctx.conns[i].state != Free
      invariant SameBytes(s.heap, ctx.heap) && (c !in s.heap ==> c !in ctx.heap)
      invariant ctx.conns[i].chunk == Some(c) && c in s.heap ==> c in ctx.heap
      invariant StaysTimely(s, ctx.Now(), i) && ctx.log == s.log + done
      invariant len <= |u| && (inherit == 0 ==> Holds(ctx.heap, c, pos, u[|u| - len..]))
      invariant inherit == 0 ==> Parsed(u, |u| - len, done)
      invariant len < |u| && c !in s.heap ==> |u| < HEADER_LEN
      invariant done == [] && c in s.heap ==> c in ctx.heap
      invariant done != [] ==> Complete(u) && c in s.heap
      invariant inherit > 0 ==> len == 0 && Packets(u) == done && |Tail(u)| == inherit && pkg == Need(Tail(u))
      invariant AllKnown(ctx.rl.idOffset, |ctx.rl.rs|, done)
    {
      ghost var rest := u[|u| - len..];
      ghost var conns := ctx.conns;
      ConnTrans(s.conns, conns, conns, i);
      if len >= HEADER_LEN && c !in ctx.heap {
        ok, wild := false, true;
        ParsedPrefix(u, |u| - len, done);
        GoodFreed(ctx.Now(), i);
        return;
      }
      if len < HEADER_LEN {
        pkg := HEADER_LEN;
      } else {
        HoldsBytes(ctx.heap, c, pos, rest);
        pkg := PacketSize(ctx.heap[c].data[pos..ctx.heap[c].write]);
      }
      Shape(rest);
      if len < pkg {
        ParsedUp(u, |u| - len, done);
        NeedOf(rest);
        inherit := len;
        pos, len := pos + len, 0;
      } else {
        ParsedNext(u, |u| - len, done);
        TimelyNext(s, ctx.Now(), i, Packets(u), |done|);
        ok := HandOver(ctx, i, c, pos, ctx.heap[c].data[pos..ctx.heap[c].write], s);
        ConnTrans(s.conns, conns, ctx.conns, i);
        HasPackets(u);
        KnownNext(ctx.rl.idOffset, |ctx.rl.rs|, done, First(rest));
        done := done + [First(rest)];
        if !ok {
          return;
        }
        assert u[|u| - (len - pkg)..] == rest[pkg..];
        pos, len := pos + pkg, len - pkg;
      }
    }
    if inherit == 0 {
      assert u[|u| - len..] == [];
      NothingLeft(u, |u| - len, done);
    }
    GoodFreed(ctx.Now(), i);
  }

  lemma ConnSelf(cs: seq<Conn>, i: nat)
    requires i < |cs|
    ensures SameConn(cs, cs, i)
  {}

  lemma ConnTrans(a: seq<Conn>, b: seq<Conn>, c: seq<Conn>, i: nat)
    requires i < |b| && SameConn(a, b, i)
    ensures SameConn(b, c, i) ==> SameConn(a, c, i) && |c| == |b| && c[i].chunk == b[i].chunk
                                  && (b[i].state != Free ==> c[i].state != Free)
  {}

  lemma KnownNone(off: nat, n: nat)
    ensures AllKnown(off, n, [])
  {}

  lemma KnownNext(off: nat, n: nat, ps: seq<Packet>, p: Packet)
    ensures AllKnown(off, n, ps) && Known(off, n, p) ==> AllKnown(off, n, ps + [p])
  {
    hide Known;
  }

  lemma NeedOf(u: seq<byte>)
    ensures Need(u) == if |u| < HEADER_LEN then HEADER_LEN else PacketSize(u)
  {}

  lemma HoldsBytes(h: Heap, c: ChunkId, pos: nat, u: seq<byte>)
    requires Holds(h, c, pos, u) && c in h
    ensures pos + |u| == h[c].write <= |h[c].data| && h[c].data[pos..h[c].write] == u
  {}

  lemma HoldsAll(h: Heap, c: ChunkId, pos: nat, u: seq<byte>)
    requires c in h && pos <= h[c].write <= |h[c].data| && u == h[c].data[pos..h[c].write]
    ensures Holds(h, c, pos, u)
  {}

  lemma HoldsRest(h: Heap, h': Heap, c: ChunkId, pos: nat, u: seq<byte>, k: nat)
    requires Holds(h, c, pos, u) && c in h && SameBytes(h, h') && k <= |u|
    ensures Holds(h', c, pos + k, u[k..])
  {}

  lemma HasPackets(u: seq<byte>)
    ensures |Packets(u)| > 0 ==> Complete(u)
  {}

  lemma ParsedPrefix(u: seq<byte>, k: nat, done: seq<Packet>)
    requires Parsed(u, k, done)
    ensures done <= Packets(u)
  {
    hide Packets, Tail;
  }

  /** The packet at `pos` goes to the handler. */
  method HandOver(ctx: Context, i: nat, c: ChunkId, pos: nat, rest: seq<byte>, ghost s: Snapshot) returns (ok: bool)
    requires ctx.Inv() && i < |ctx.conns| && ctx.conns[i].state != Free
    requires c in ctx.heap && pos <= ctx.heap[c].write <= |ctx.heap[c].data|
    requires rest == ctx.heap[c].data[pos..ctx.heap[c].write] && Complete(rest)
    requires Timely(ctx.Now(), i, First(rest)) && StaysTimely(s, ctx.Now(), i) && SameBytes(s.heap, ctx.heap)
    modifies ctx`heap, ctx`track, ctx`log, ctx`conns, ctx.rl`rs, ctx.rl`entries, ctx.rl`hand
    ensures ctx.InvFreed(i) && (ok ==> ctx.Inv() && Known(ctx.rl.idOffset, |ctx.rl.rs|, First(rest)))
    ensures SameConn(old(ctx.conns), ctx.conns, i) && |ctx.rl.rs| == |old(ctx.rl.rs)|
    ensures SameBytes(s.heap, ctx.heap) && (ctx.conns[i].chunk == Some(c) ==> c in ctx.heap)
    ensures Holds(ctx.heap, c, pos + PacketSize(rest), rest[PacketSize(rest)..])
    ensures StaysTimely(s, ctx.Now(), i) && ctx.log == old(ctx.log) + [First(rest)]
  {
    hide Good, IsPowerOf2, StaysTimely, PacketSize, ReadHeader, Timely, FreedAt, SameBytes, Holds;
    var p := First(rest);
    assert ctx.heap[c].data[pos..pos + |p|] == p;
    ghost var before := ctx.Now();
    HoldsAll(ctx.heap, c, pos, rest);
    ok := ctx.HandlePkg(i, p, c, pos);
    StaysTrans(s, before, ctx.Now(), i);
    SameBytesTrans(s.heap, before.heap, ctx.heap);
    HoldsRest(before.heap, ctx.heap, c, pos, rest, |p|);
  }

  /** The first `k` bytes of `u` are the packets `done`. */
  ghost predicate Parsed(u: seq<byte>, k: nat, done: seq<Packet>) {
    k <= |u| && Packets(u) == done + Packets(u[k..]) && Tail(u) == Tail(u[k..])
  }

  lemma ParsedNothing(u: seq<byte>)
    ensures Parsed(u, 0, [])
  {
    assert u[0..] == u;
  }

  lemma Shape(rest: seq<byte>)
    ensures Complete(rest) <==> |rest| >= HEADER_LEN && |rest| >= PacketSize(rest)
    ensures |rest| >= HEADER_LEN ==> PacketSize(rest) >= HEADER_LEN
  {}

  lemma ParsedNext(u: seq<byte>, k: nat, done: seq<Packet>)
    requires Parsed(u, k, done) && Complete(u[k..])
    ensures Parsed(u, k + PacketSize(u[k..]), done + [First(u[k..])])
    ensures |done| < |Packets(u)| && Packets(u)[|done|] == First(u[k..])
    ensures done + [First(u[k..])] <= Packets(u)
  {
    var rest := u[k..];
    var n := PacketSize(rest);
    assert Packets(rest) == [First(rest)] + Packets(rest[n..]) && Tail(rest) == Tail(rest[n..]);
    hide Packets, Tail, PacketSize;
    assert rest[n..] == u[k + n..];
    assert done + ([First(rest)] + Packets(rest[n..])) == done + [First(rest)] + Packets(rest[n..]);
  }

  lemma ParsedUp(u: seq<byte>, k: nat, done: seq<Packet>)
    requires Parsed(u, k, done) && !Complete(u[k..])
    ensures Packets(u) == done && Tail(u) == u[k..]
  {
    assert done + [] == done;
  }

  lemma NothingLeft(u: seq<byte>, k: nat, done: seq<Packet>)
    requires Parsed(u, k, done) && u[k..] == []
    ensures Packets(u) == done && Tail(u) == []
  {
    ParsedUp(u, k, done);
  }

  lemma TimelyNext(s: Snapshot, s': Snapshot, i: nat, ps: seq<Packet>, k: nat)
    requires StaysTimely(s, s', i) && TimelyAll(s, i, ps) && k < |ps|
    ensures Timely(s', i, ps[k])
  {
    TimelyAllCarries(s, s', i, ps);
  }

  // ----- one turn of the outer loop ---------------------------------------------------------------

  /** The local variables of the loop: the lengths of the write and read pointers, and the rest. */
  datatype Loop = Loop(writeLen: nat, readLen: nat, inherit: nat, pkgSize: nat)

  /** The state at the top of the loop, when the unparsed bytes are `u`. */
  ghost predicate AtTop(h: Heap, c: Conn, st: Loop, u: seq<byte>) {
    match c.chunk
    case None => st == Loop(0, 0, 0, st.pkgSize) && u == []
    case Some(id) =>
      && id in h && h[id].read <= h[id].write <= |h[id].data| && st.writeLen == |h[id].data| - h[id].write
      && (st.inherit == 0 ==> u == h[id].data[h[id].read..h[id].write] && st.readLen == |u|)
      && (st.inherit > 0 ==>
            && st.readLen == 0 && h[id].read == h[id].write && st.inherit <= h[id].write
            && st.pkgSize == Need(u) && !Complete(u) && u == LastWritten(h[id], st.inherit))
  }

  /**
   * What a call hands over of the bytes it found unread. Without room for a header a new, empty
   * chunk takes the place of the old one; but when nothing is read, it is the old one that is parsed.
   */
  ghost function KeptFrom(unread: seq<byte>, room: int, hadData: bool): seq<byte> {
    if room < HEADER_LEN && hadData then [] else unread
  }

  /** The unparsed bytes that the connection's chunk holds after the check for room. */
  ghost function KeptOf(st: Loop, u: seq<byte>): seq<byte> {
    if st.inherit > 0 then u else KeptFrom(u, st.writeLen, true)
  }

  /** The size of the chunk that is made for an incomplete record. */
  ghost function SizeFor(u: seq<byte>): nat { if Need(u) > CHUNK_DATA then Need(u) else CHUNK_DATA }

  /** The connection's chunk was made to the measure of its unread bytes, and nobody else holds it. */
  ghost predicate Snug(h: Heap, c: Conn) {
    && c.chunk.Some? && c.chunk.value in h && h[c.chunk.value].refs == 1
    && Room(h, c) == SizeFor(Unread(h, c)) - |Unread(h, c)|
  }

  lemma NeedMore(u: seq<byte>)
    requires !Complete(u)
    ensures |u| < Need(u)
  {}

  lemma TimelyConns(s: Snapshot, s': Snapshot, i: nat)
    requires s'.reqs == s.reqs && s'.track == s.track && s'.off == s.off && i < |s'.conns| == |s.conns|
    requires forall j :: 0 <= j < |s.conns| ==> SendsAsBefore(s.conns[j], s'.conns[j])
    requires MayTurn(s'.conns[i].state, Ready) ==> MayTurn(s.conns[i].state, Ready)
    ensures StaysTimely(s, s', i)
  {}

  /** A new chunk when bytes are to be inherited or there is no room for a header. */
  method EnsureRoom(ctx: Context, i: nat, st: Loop, ghost u: seq<byte>) returns (c: ChunkId, writeLen: nat)
    requires ctx.Inv() && i < |ctx.conns| && AtTop(ctx.heap, ctx.conns[i], st, u)
    modifies ctx`heap, ctx`nextId, ctx`conns
    ensures ctx.Inv() && |ctx.conns| == |old(ctx.conns)| && c in ctx.heap
    ensures ctx.conns == old(ctx.conns)[i := old(ctx.conns)[i].(chunk := Some(c))]
    ensures Unread(ctx.heap, ctx.conns[i]) == KeptOf(st, u)
    ensures 0 < writeLen == Room(ctx.heap, ctx.conns[i])
    ensures st.inherit == 0 && st.pkgSize <= CHUNK_DATA ==>
              writeLen == if st.writeLen < HEADER_LEN then CHUNK_DATA else st.writeLen
    ensures st.inherit > 0 ==> Snug(ctx.heap, ctx.conns[i])
    ensures st.inherit == 0 && st.writeLen < HEADER_LEN ==> LetGoOf(old(ctx.heap), old(ctx.conns[i].chunk), ctx.heap)
    ensures StaysTimely(old(ctx.Now()), ctx.Now(), i)
  {
    hide Good, IsPowerOf2, StaysTimely;
    if st.inherit > 0 || st.writeLen < HEADER_LEN {
      if st.inherit > 0 {
        NeedMore(u);
      }
      var size := if st.pkgSize > CHUNK_DATA then st.pkgSize else CHUNK_DATA;
      var ok;
      ok, c := NewChunk(ctx, i, size, st.inherit);
      assert ok;
      writeLen := size - st.inherit;
      assert ctx.heap[c].data[0..st.inherit] == ctx.heap[c].data[..st.inherit];
    } else {
      c, writeLen := ctx.conns[i].chunk.value, st.writeLen;
      assert ctx.conns[i].(chunk := Some(c)) == ctx.conns[i];
    }
    TimelyConns(old(ctx.Now()), ctx.Now(), i);
  }

  lemma {:induction false} TailIsSuffix(w: seq<byte>)
    ensures |Tail(w)| <= |w| && Tail(w) == w[|w| - |Tail(w)|..]
    decreases |w|
  {
    if Complete(w) {
      var v := w[PacketSize(w)..];
      TailIsSuffix(v);
      assert v[|v| - |Tail(v)|..] == w[|w| - |Tail(v)|..];
    }
  }

  lemma InheritIsTail(ch: Chunk, w: seq<byte>, inherit: nat)
    requires ch.read <= ch.write <= |ch.data| && w == ch.data[ch.read..ch.write] && inherit == |Tail(w)|
    ensures inherit <= ch.write && LastWritten(ch, inherit) == Tail(w)
  {
    hide Tail;
    TailIsSuffix(w);
    assert w[|w| - inherit..] == ch.data[ch.write - inherit..ch.write];
  }

  /** A read that returned bytes: store them, hand over the packets, move the read pointer. */
  method OnData(ctx: Context, i: nat, c: ChunkId, writeLen: nat, pkgSize: nat, bytes: seq<byte>, ghost kept: seq<byte>)
    returns (ok: bool, st: Loop)
    requires ctx.Inv() && i < |ctx.conns| && ctx.conns[i].state != Free && ctx.conns[i].chunk == Some(c)
    requires c in ctx.heap && Unread(ctx.heap, ctx.conns[i]) == kept
    requires |bytes| <= writeLen == Room(ctx.heap, ctx.conns[i])
    requires TimelyAll(ctx.Now(), i, Packets(kept + bytes))
    modifies ctx`heap, ctx`track, ctx`log, ctx`conns, ctx.rl`rs, ctx.rl`entries, ctx.rl`hand
    ensures ctx.InvFreed(i) && (ok ==> ctx.Inv())
    ensures SameConn(old(ctx.conns), ctx.conns, i) && |ctx.rl.rs| == |old(ctx.rl.rs)|
    ensures StaysTimely(old(ctx.Now()), ctx.Now(), i)
    ensures ok ==> ctx.log == old(ctx.log) + Packets(kept + bytes)
    ensures ok ==> AllKnown(ctx.rl.idOffset, |ctx.rl.rs|, Packets(kept + bytes))
    ensures ok ==> st.readLen == 0 && AtTop(ctx.heap, ctx.conns[i], st, Tail(kept + bytes))
    ensures !ok ==> Unread(ctx.heap, ctx.conns[i]) == kept + bytes
    ensures !ok ==> Room(ctx.heap, ctx.conns[i]) == writeLen - |bytes|
    ensures !ok ==> old(ctx.log) < ctx.log <= old(ctx.log) + Packets(kept + bytes)
  {
    hide Good, IsPowerOf2, Packets, Tail, TimelyAll, StaysTimely, Patch, FreedAt, AllKnown, SameBytes, Need, Complete;
    ghost var s := ctx.Now();
    ChunkBounds(s, c);
    ghost var before := ctx.heap[c];
    Fill(ctx, c, bytes);
    FilledUnread(before, bytes);
    ghost var w := kept + bytes;
    TimelyConns(s, ctx.Now(), i);
    ghost var s1 := ctx.Now();
    TimelyAllCarries(s, s1, i, Packets(w));
    var inherit, pkg, wild;
    var read, write := ctx.heap[c].read, ctx.heap[c].write;
    ok, wild, inherit, pkg := ParsePackets(ctx, i, c, read, write - read, pkgSize, w);
    SameChunk(s1.heap, ctx.heap, c);
    StaysTrans(s, s1, ctx.Now(), i);
    st := Loop(writeLen - |bytes|, 0, inherit, pkg);
    if ok {
      InheritIsTail(ctx.heap[c], w, inherit);
      ghost var s2 := ctx.Now();
      SetRead(ctx, c, ctx.heap[c].write);
      TimelyConns(s2, ctx.Now(), i);
      StaysTrans(s, s2, ctx.Now(), i);
      NoneInherited(w);
      TailIncomplete(w);
      GoodFreed(ctx.Now(), i);
    }
  }

  lemma FilledUnread(ch: Chunk, bytes: seq<byte>)
    requires ch.read <= ch.write && ch.write + |bytes| <= |ch.data|
    ensures Patch(ch.data, ch.write, bytes)[ch.read..ch.write + |bytes|] == ch.data[ch.read..ch.write] + bytes
  {}

  lemma TailIncomplete(w: seq<byte>)
    ensures !Complete(Tail(w))
  {
    StreamSplit(w);
  }

  lemma NoneInherited(w: seq<byte>)
    ensures |Tail(w)| == 0 ==> Tail(w) == []
  {}

  /** fcgi_fd_set_state(FCGI_FD_CLOSING). */
  method SetClosing(ctx: Context, i: nat) returns (ok: bool)
    requires ctx.Inv() && i < |ctx.conns| && ctx.conns[i].state != Free
    modifies ctx`conns
    ensures ctx.Inv() && SameConn(old(ctx.conns), ctx.conns, i) && StaysTimely(old(ctx.Now()), ctx.Now(), i)
    ensures ok <==> MayTurn(old(ctx.conns[i].state), Closing)
    ensures ctx.conns[i].state == if ok then Closing else old(ctx.conns[i].state)
  {
    hide Good, IsPowerOf2, StaysTimely;
    ok := MayTurn(ctx.conns[i].state, Closing);
    ghost var s := ctx.Now();
    if ok {
      GoodConn(s, i);
      SetConn(s, i, ctx.conns[i].(state := Closing));
      ctx.conns := ctx.conns[i := ctx.conns[i].(state := Closing)];
    }
    TimelyConns(s, ctx.Now(), i);
  }

  /** The error path of fcgi_recv_response, after which the connection will be let go of. */
  method CloseOnError(ctx: Context, i: nat)
    requires ctx.InvFreed(i) && ctx.conns[i].state != Free
    modifies ctx`conns
    ensures ctx.InvFreed(i) && SameConn(old(ctx.conns), ctx.conns, i) && StaysTimely(old(ctx.Now()), ctx.Now(), i)
    ensures ctx.conns[i].state == if MayTurn(old(ctx.conns[i].state), Closing) then Closing else old(ctx.conns[i].state)
  {
    hide Good, IsPowerOf2, StaysTimely;
    ghost var s := ctx.Now();
    if MayTurn(ctx.conns[i].state, Closing) {
      ctx.conns := ctx.conns[i := ctx.conns[i].(state := Closing)];
    }
    assert FreedAt(ctx.Now(), i) == FreedAt(s, i);
    TimelyConns(s, ctx.Now(), i);
  }

  /** A read without bytes ends the call; bytes unread since before the call are parsed and passed over. */
  method OnNoData(ctx: Context, i: nat, c: ChunkId, e: ReadEvent, readLen: nat, pkgSize: nat, ghost kept: seq<byte>)
    returns (ok: bool)
    requires ctx.Inv() && i < |ctx.conns| && ctx.conns[i].state != Free && ctx.conns[i].chunk == Some(c)
    requires c in ctx.heap && Unread(ctx.heap, ctx.conns[i]) == kept && !e.Data?
    requires readLen > 0 ==> TimelyAll(ctx.Now(), i, Packets(kept))
    modifies ctx`heap, ctx`track, ctx`log, ctx`conns, ctx.rl`rs, ctx.rl`entries, ctx.rl`hand
    ensures ctx.InvFreed(i) && (ok ==> ctx.Inv())
    ensures SameConn(old(ctx.conns), ctx.conns, i) && |ctx.rl.rs| == |old(ctx.rl.rs)|
    ensures ok ==> ctx.log == old(ctx.log) + (if readLen > 0 then Packets(kept) else [])
    ensures ok && readLen > 0 ==> AllKnown(ctx.rl.idOffset, |ctx.rl.rs|, Packets(kept))
    ensures ok ==> Unread(ctx.heap, ctx.conns[i]) == if readLen > 0 then [] else kept
    ensures !ok ==> Unread(ctx.heap, ctx.conns[i]) == kept
    ensures !ok ==> old(ctx.log) <= ctx.log <= old(ctx.log) + Packets(kept)
    ensures !ok && e.WouldBlock? ==> |old(ctx.log)| < |ctx.log|
    ensures ok && readLen == 0 ==> ctx.heap == old(ctx.heap) && ctx.conns[i].chunk == old(ctx.conns[i].chunk)
    ensures StaysTimely(old(ctx.Now()), ctx.Now(), i)
  {
    hide Good, IsPowerOf2, Packets, Tail, TimelyAll, StaysTimely, FreedAt, AllKnown, SameBytes, Complete;
    ghost var s := ctx.Now();
    TimelySame(s, s, i);
    ok := !e.Broken?;
    if e.Eof? {
      ok := SetClosing(ctx, i);
    }
    GoodFreed(ctx.Now(), i);
    if !ok || readLen == 0 {
      return;
    }
    ghost var s1 := ctx.Now();
    TimelyAllCarries(s, s1, i, Packets(kept));
    ChunkBounds(s1, c);
    var inherit, pkg, wild;
    var read, write := ctx.heap[c].read, ctx.heap[c].write;
    ok, wild, inherit, pkg := ParsePackets(ctx, i, c, read, write - read, pkgSize, kept);
    SameChunk(s1.heap, ctx.heap, c);
    StaysTrans(s, s1, ctx.Now(), i);
    if ok {
      ghost var s2 := ctx.Now();
      ChunkBounds(s2, c);
      SetRead(ctx, c, ctx.heap[c].write);
      TimelyConns(s2, ctx.Now(), i);
      StaysTrans(s, s2, ctx.Now(), i);
      GoodFreed(ctx.Now(), i);
    }
  }

  lemma {:induction false} PacketsPrefix(a: seq<byte>, b: seq<byte>)
    ensures Packets(a) <= Packets(a + b)
  {
    StreamGrows(a, b);
  }

  lemma TimelyPrefix(s: Snapshot, i: nat, a: seq<byte>, b: seq<byte>)
    requires i < |s.conns| && TimelyAll(s, i, Packets(a + b))
    ensures TimelyAll(s, i, Packets(a))
  {
    hide Timely, Packets;
    PacketsPrefix(a, b);
    forall k | 0 <= k < |Packets(a)| ensures Timely(s, i, Packets(a)[k]) {
      assert Packets(a)[k] == Packets(a + b)[k];
    }
  }

  lemma TimelySuffix(s: Snapshot, i: nat, a: seq<byte>, b: seq<byte>)
    requires i < |s.conns| && TimelyAll(s, i, Packets(a + b))
    ensures TimelyAll(s, i, Packets(Tail(a) + b))
  {
    hide Timely, Packets, Tail;
    StreamGrows(a, b);
    var n := |Packets(a)|;
    forall k | 0 <= k < |Packets(Tail(a) + b)| ensures Timely(s, i, Packets(Tail(a) + b)[k]) {
      assert Packets(a + b)[n + k] == Packets(Tail(a) + b)[k];
    }
  }

  /** The next read, if it returns bytes, returns no more than `room`. */
  predicate FitsIn(script: seq<ReadEvent>, room: int) {
    script != [] && script[0].Data? && |script[0].bytes| <= room
  }

  lemma InheritsUnread(h: Heap, c: Conn, st: Loop, u: seq<byte>)
    requires AtTop(h, c, st, u)
    ensures st.inherit > 0 ==> st.readLen == 0
  {}

  lemma NothingToCome()
    ensures ToCome([]) == []
  {}

  lemma SameUnread(h: Heap, c: Conn, d: Conn)
    requires c.chunk == d.chunk
    ensures Unread(h, c) == Unread(h, d) && Room(h, c) == Room(h, d)
  {}

  lemma SnugStill(h: Heap, c: Conn, d: Conn)
    requires c.chunk == d.chunk
    ensures Snug(h, c) <==> Snug(h, d)
  {
    SameUnread(h, c, d);
  }

  /** One turn of the do-while loop; `got` is what the read returned. */
  method Turn(ctx: Context, i: nat, sock: Socket, st: Loop, ghost u: seq<byte>)
    returns (ok: bool, done: bool, st': Loop, ghost got: seq<byte>)
    requires ctx.Inv() && sock.Valid() && i < |ctx.conns| && ctx.conns[i].state != Free
    requires AtTop(ctx.heap, ctx.conns[i], st, u)
    requires st.readLen > 0 ==> st.writeLen >= HEADER_LEN || sock.HasData()
    requires TimelyAll(ctx.Now(), i, Packets(KeptOf(st, u) + ToCome(sock.script)))
    modifies ctx`heap, ctx`nextId, ctx`track, ctx`log, ctx`conns, ctx.rl`rs, ctx.rl`entries, ctx.rl`hand, sock
    ensures ctx.InvFreed(i) && (ok ==> ctx.Inv()) && sock.Valid()
    ensures |ctx.conns| == |old(ctx.conns)| && ctx.conns[i].state != Free
    ensures OthersSame(old(ctx.conns), ctx.conns, i) && |ctx.rl.rs| == |old(ctx.rl.rs)|
    ensures StaysTimely(old(ctx.Now()), ctx.Now(), i)
    ensures done <==> !old(sock.HasData())
    ensures sock.taken == old(sock.taken) + got && (done <==> got == [])
    ensures got + ToCome(sock.script) == ToCome(old(sock.script))
    ensures !done ==> Size(sock.script) < Size(old(sock.script))
    ensures ok && !done ==> ctx.log == old(ctx.log) + Packets(KeptOf(st, u) + got)
    ensures ok && !done ==> st'.readLen == 0 && AtTop(ctx.heap, ctx.conns[i], st', Tail(KeptOf(st, u) + got))
    ensures ok && done ==> ctx.log == old(ctx.log) + (if st.readLen > 0 then Packets(KeptOf(st, u)) else [])
    ensures ok && done ==> Unread(ctx.heap, ctx.conns[i]) == if st.readLen > 0 then [] else KeptOf(st, u)
    ensures ok && (!done || st.readLen > 0) ==> AllKnown(ctx.rl.idOffset, |ctx.rl.rs|, Packets(KeptOf(st, u) + got))
    ensures !ok ==> Unread(ctx.heap, ctx.conns[i]) == KeptOf(st, u) + got
    ensures !ok ==> old(ctx.log) <= ctx.log <= old(ctx.log) + Packets(KeptOf(st, u) + got)
    ensures !ok && (!done || AllData(old(sock.script))) ==> |old(ctx.log)| < |ctx.log|
    ensures AllData(old(sock.script)) ==> AllData(sock.script) && (done ==> ToCome(sock.script) == [])
    ensures ok && done && st.inherit > 0 ==> Snug(ctx.heap, ctx.conns[i])
    ensures !ok && !done && st.inherit == 0 && st.pkgSize <= CHUNK_DATA ==>
              Room(ctx.heap, ctx.conns[i]) == (if st.writeLen < HEADER_LEN then CHUNK_DATA else st.writeLen) - |got|
    ensures st.inherit == 0 && st.pkgSize <= CHUNK_DATA && !done
            && FitsIn(old(sock.script), if st.writeLen < HEADER_LEN then CHUNK_DATA else st.writeLen)
            ==> got == old(sock.script)[0].bytes
  {
    hide Good, IsPowerOf2, Packets, Tail, TimelyAll, StaysTimely, ToCome, Size, AtTop, FreedAt, AllKnown,
      Snug, Need;
    NothingToCome();
    InheritsUnread(ctx.heap, ctx.conns[i], st, u);
    ghost var s, kept, all := ctx.Now(), KeptOf(st, u), ToCome(sock.script);
    var c, writeLen := EnsureRoom(ctx, i, st, u);
    ghost var s1 := ctx.Now();
    TimelyAllCarries(s, s1, i, Packets(kept + all));
    var e := sock.Read(writeLen);
    done, st', got := !e.Data?, st, [];
    if e.Data? {
      got := e.bytes;
      assert kept + all == (kept + got) + ToCome(sock.script);
      TimelyPrefix(s1, i, kept + got, ToCome(sock.script));
      ok, st' := OnData(ctx, i, c, writeLen, st.pkgSize, e.bytes, kept);
    } else {
      TimelyPrefix(s1, i, kept, all);
      ghost var h, conn := ctx.heap, ctx.conns[i];
      ok := OnNoData(ctx, i, c, e, st.readLen, st.pkgSize, kept);
      assert kept + [] == kept;
      SnugStill(h, conn, ctx.conns[i]);
    }
    StaysTrans(s, s1, ctx.Now(), i);
  }

  ghost predicate OthersSame(cs: seq<Conn>, cs': seq<Conn>, i: nat) {
    && i < |cs| == |cs'|
    && cs' == cs[i := cs[i].(state := cs'[i].state, chunk := cs'[i].chunk)]
    && (cs'[i].state == cs[i].state || cs'[i].state == Ready || cs'[i].state == Closing)
  }

  // ----- the call -----------------------------------------------------------------------------------

  /** What the call hands over of the bytes it finds unread. */
  ghost function KeptAtCall(h: Heap, c: Conn, hadData: bool): seq<byte> {
    KeptFrom(Unread(h, c), Room(h, c), hadData)
  }

  /** The call replaces the chunk, reads nothing, and then parses the chunk it let go of. */
  predicate ParsesOld(h: Heap, c: Conn, hadData: bool) {
    !hadData && Unread(h, c) != [] && Room(h, c) < HEADER_LEN
  }

  /** What the call leaves unread, given what it kept and what it received. */
  ghost function LeftUnread(kept: seq<byte>, firstHadData: bool, received: seq<byte>): seq<byte> {
    if kept != [] && !firstHadData then [] else Tail(kept + received)
  }

  /** The room the first read of a call has. */
  ghost function FirstRoom(h: Heap, c: Conn): int {
    if Room(h, c) < HEADER_LEN then CHUNK_DATA else Room(h, c)
  }

  /** All of the stream was handed over, and all of it was for requests of the list. */
  ghost predicate Completed(log: seq<Packet>, log': seq<Packet>, off: nat, n: nat, stream: seq<byte>) {
    log' == log + Packets(stream) && AllKnown(off, n, Packets(stream))
  }

  /**
   * The call broke off. The turns up to byte `k` of what was received were completed; everything
   * behind their records is still unread, also the records that the last turn handed over.
   */
  ghost predicate Interrupted(log: seq<Packet>, log': seq<Packet>, off: nat, n: nat, kept: seq<byte>,
                              first: seq<byte>, received: seq<byte>, k: nat, unread: seq<byte>)
  {
    && k <= |received|
    && if k == 0 then
         && unread == kept + received && log <= log' <= log + Packets(unread)
         && (received != [] ==> |log| < |log'|)
       else
         && first <= received[..k] && unread == Tail(kept + received[..k]) + received[k..]
         && AllKnown(off, n, Packets(kept + received[..k]))
         && log + Packets(kept + received[..k]) <= log' <= log + Packets(kept + received[..k]) + Packets(unread)
  }

  /** In either case the records logged are the first ones of the stream. */
  lemma InterruptedLogs(log: seq<Packet>, log': seq<Packet>, off: nat, n: nat, kept: seq<byte>,
                        first: seq<byte>, received: seq<byte>, k: nat, unread: seq<byte>)
    requires Interrupted(log, log', off, n, kept, first, received, k, unread)
    ensures log <= log' <= log + Packets(kept + received)
  {
    hide Packets, Tail, AllKnown;
    if k > 0 {
      var x := kept + received[..k];
      assert kept + received == x + received[k..];
      StreamGrows(x, received[k..]);
      assert log + Packets(x) + Packets(unread) == log + (Packets(x) + Packets(unread));
    }
  }

  /**
   * How a call ends when a record is refused or a read fails. A call that parses the old chunk
   * leaves the new, empty one behind.
   */
  ghost predicate BrokeOff(stale: bool, log: seq<Packet>, log': seq<Packet>, off: nat, n: nat, kept: seq<byte>,
                           first: seq<byte>, received: seq<byte>, k: nat, unread: seq<byte>)
  {
    if stale then unread == [] && received == [] && log <= log' <= log + Packets(kept)
    else Interrupted(log, log', off, n, kept, first, received, k, unread)
  }

  /** In either case the records logged are the first ones of the stream. */
  lemma BrokeOffLogs(stale: bool, log: seq<Packet>, log': seq<Packet>, off: nat, n: nat, kept: seq<byte>,
                     first: seq<byte>, received: seq<byte>, k: nat, unread: seq<byte>)
    requires BrokeOff(stale, log, log', off, n, kept, first, received, k, unread)
    ensures log <= log' <= log + Packets(kept + received)
  {
    hide Packets, Tail, AllKnown;
    if stale {
      assert kept + received == kept;
    } else {
      InterruptedLogs(log, log', off, n, kept, first, received, k, unread);
    }
  }

  /** A read that returns no bytes does not end the call with an error. */
  predicate GoesOn(script: seq<ReadEvent>, state: ConnState) {
    || script == [] || script[0].Data? || script[0].WouldBlock?
    || (script[0].Eof? && MayTurn(state, Closing))
  }

  /**
   * The turn in which a new chunk takes the place of the old one, nothing is read, and the loop
   * goes on to parse the old one. It is `wild` when that has been freed and a header is to be read.
   */
  method OldTurn(ctx: Context, i: nat, sock: Socket, st: Loop, ghost u: seq<byte>) returns (ok: bool, wild: bool)
    requires ctx.Inv() && sock.Valid() && i < |ctx.conns| && ctx.conns[i].state != Free && !sock.HasData()
    requires ctx.conns[i].chunk.Some? && AtTop(ctx.heap, ctx.conns[i], st, u)
    requires st.inherit == 0 && st.writeLen < HEADER_LEN && TimelyAll(ctx.Now(), i, Packets(u))
    modifies ctx`heap, ctx`nextId, ctx`track, ctx`log, ctx`conns, ctx.rl`rs, ctx.rl`entries, ctx.rl`hand, sock
    ensures ctx.InvFreed(i) && (ok || wild ==> ctx.Inv()) && sock.Valid() && sock.taken == old(sock.taken)
    ensures ToCome(sock.script) == ToCome(old(sock.script)) && (AllData(old(sock.script)) ==> AllData(sock.script))
    ensures OthersSame(old(ctx.conns), ctx.conns, i) && ctx.conns[i].state != Free
    ensures StaysTimely(old(ctx.Now()), ctx.Now(), i)
    ensures ok ==> Completed(old(ctx.log), ctx.log, ctx.rl.idOffset, |ctx.rl.rs|, u)
    ensures !wild ==> Unread(ctx.heap, ctx.conns[i]) == []
    ensures old(ctx.log) <= ctx.log <= old(ctx.log) + Packets(u)
    ensures !ok && !wild && old(sock.script) == [] ==> |old(ctx.log)| < |ctx.log|
    ensures wild ==> !ok && |u| >= HEADER_LEN && GoesOn(old(sock.script), old(ctx.conns[i].state))
    ensures old(ctx.heap[ctx.conns[i].chunk.value].refs) > 1 && !Complete(u) ==> !wild
    ensures |u| >= HEADER_LEN && GoesOn(old(sock.script), old(ctx.conns[i].state)) ==>
              (old(ctx.heap[ctx.conns[i].chunk.value].refs) <= 1 ==> wild)
  {
    hide Good, IsPowerOf2, Packets, Tail, TimelyAll, StaysTimely, ToCome, FreedAt, AllKnown, SameBytes, Need, Snug,
      Complete;
    ghost var s := ctx.Now();
    var b := ctx.conns[i].chunk.value;
    var start := ctx.heap[b].read;
    ok := ReplaceAndRead(ctx, i, sock, st, u);
    wild := false;
    ghost var s1 := ctx.Now();
    GoodFreed(s1, i);
    EmptyLogs(s.log, u);
    if !ok {
      return;
    }
    TimelyAllCarries(s, s1, i, Packets(u));
    var inherit, pkg;
    ok, wild, inherit, pkg := ParsePackets(ctx, i, b, start, st.readLen, st.pkgSize, u);
    StaysTrans(s, s1, ctx.Now(), i);
    FreedChunkLive(ctx.Now(), i);
    SameChunk(s1.heap, ctx.heap, ctx.conns[i].chunk.value);
  }

  lemma EmptyLogs(log: seq<Packet>, u: seq<byte>)
    ensures log <= log + Packets(u)
  {}

  /** The new chunk takes the place of the old one, and the read returns no bytes. */
  method ReplaceAndRead(ctx: Context, i: nat, sock: Socket, st: Loop, ghost u: seq<byte>) returns (ok: bool)
    requires ctx.Inv() && sock.Valid() && i < |ctx.conns| && ctx.conns[i].state != Free && !sock.HasData()
    requires ctx.conns[i].chunk.Some? && AtTop(ctx.heap, ctx.conns[i], st, u)
    requires st.inherit == 0 && st.writeLen < HEADER_LEN
    modifies ctx`heap, ctx`nextId, ctx`conns, sock
    ensures ctx.Inv() && sock.Valid() && sock.taken == old(sock.taken)
    ensures ToCome(sock.script) == ToCome(old(sock.script)) && (AllData(old(sock.script)) ==> AllData(sock.script))
    ensures OthersSame(old(ctx.conns), ctx.conns, i) && ctx.conns[i].state != Free && ctx.conns[i].chunk.Some?
    ensures StaysTimely(old(ctx.Now()), ctx.Now(), i) && Unread(ctx.heap, ctx.conns[i]) == []
    ensures LetGoOf(old(ctx.heap), old(ctx.conns[i].chunk), ctx.heap)
    ensures Holds(ctx.heap, old(ctx.conns[i].chunk.value), old(ctx.heap[ctx.conns[i].chunk.value].read), u)
    ensures ok <==> GoesOn(old(sock.script), old(ctx.conns[i].state))
  {
    hide Good, IsPowerOf2, StaysTimely, ToCome, Need, Snug, Complete;
    ghost var s := ctx.Now();
    var c, writeLen := EnsureRoom(ctx, i, st, u);
    ghost var s1 := ctx.Now();
    OldHeld(s.heap, ctx.heap, s.conns[i].chunk.value, u);
    var e := sock.Read(writeLen);
    ok := !e.Broken?;
    if e.Eof? {
      ok := SetClosing(ctx, i);
    }
    TimelyConns(s1, ctx.Now(), i);
    StaysTrans(s, s1, ctx.Now(), i);
  }

  lemma OldHeld(h: Heap, h': Heap, b: ChunkId, u: seq<byte>)
    requires LetGoOf(h, Some(b), h') && h[b].read <= h[b].write <= |h[b].data|
    requires u == h[b].data[h[b].read..h[b].write]
    ensures Holds(h', b, h[b].read, u)
  {}

  /** The pointers are set up and the first turn is taken. */
  method FirstTurn(ctx: Context, i: nat, sock: Socket)
    returns (ok: bool, wild: bool, done: bool, st: Loop, ghost first: seq<byte>)
    requires ctx.Inv() && sock.Valid() && i < |ctx.conns| && ctx.conns[i].state != Free
    requires TimelyAll(ctx.Now(), i, Packets(KeptAtCall(ctx.heap, ctx.conns[i], sock.HasData()) + ToCome(sock.script)))
    modifies ctx`heap, ctx`nextId, ctx`track, ctx`log, ctx`conns, ctx.rl`rs, ctx.rl`entries, ctx.rl`hand, sock
    ensures ctx.InvFreed(i) && (ok || wild ==> ctx.Inv()) && sock.Valid()
    ensures OthersSame(old(ctx.conns), ctx.conns, i) && ctx.conns[i].state != Free
    ensures sock.taken == old(sock.taken) + first && StaysTimely(old(ctx.Now()), ctx.Now(), i)
    ensures first <= ToCome(old(sock.script)) && (old(sock.HasData()) <==> first != []) && (done <==> first == [])
    ensures first + ToCome(sock.script) == ToCome(old(sock.script))
    ensures AllData(old(sock.script)) ==> AllData(sock.script) && (done ==> ToCome(sock.script) == [])
    ensures FitsIn(old(sock.script), old(FirstRoom(ctx.heap, ctx.conns[i]))) ==> first == old(sock.script)[0].bytes
    ensures WildOnlyIf(old(ctx.heap), old(ctx.conns[i]), old(sock.script), wild) && (wild ==> !ok && done)
    ensures wild ==> old(ctx.log) <= ctx.log
                     <= old(ctx.log) + Packets(old(KeptAtCall(ctx.heap, ctx.conns[i], sock.HasData())))
    ensures ok ==> Completed(old(ctx.log), ctx.log, ctx.rl.idOffset, |ctx.rl.rs|,
                             old(KeptAtCall(ctx.heap, ctx.conns[i], sock.HasData())) + first)
    ensures ok && !done ==>
              && st.readLen == 0
              && AtTop(ctx.heap, ctx.conns[i], st,
                       Tail(old(KeptAtCall(ctx.heap, ctx.conns[i], sock.HasData())) + first))
    ensures ok && done ==>
              Unread(ctx.heap, ctx.conns[i])
              == LeftUnread(old(KeptAtCall(ctx.heap, ctx.conns[i], sock.HasData())), old(sock.HasData()), first)
    ensures !ok && !wild ==>
              BrokeOff(old(ParsesOld(ctx.heap, ctx.conns[i], sock.HasData())), old(ctx.log), ctx.log, ctx.rl.idOffset,
                       |ctx.rl.rs|, old(KeptAtCall(ctx.heap, ctx.conns[i], sock.HasData())), first, first, 0,
                       Unread(ctx.heap, ctx.conns[i]))
    ensures !ok && first != [] ==> Room(ctx.heap, ctx.conns[i]) == old(FirstRoom(ctx.heap, ctx.conns[i])) - |first|
    ensures !ok && !wild && old(sock.script) == [] ==> |old(ctx.log)| < |ctx.log|
  {
    hide Good, IsPowerOf2, Packets, Tail, TimelyAll, StaysTimely, ToCome, Size, AtTop, FreedAt, AllKnown, Snug,
      Complete, Need;
    ghost var kept, u := KeptAtCall(ctx.heap, ctx.conns[i], sock.HasData()), Unread(ctx.heap, ctx.conns[i]);
    st := Begin(ctx, i);
    EmptyStream();
    NothingToCome();
    NoneKnown(ctx.rl.idOffset, |ctx.rl.rs|);
    wild := false;
    if st.readLen > 0 && st.writeLen < HEADER_LEN && !sock.HasData() {
      assert kept == u;
      TimelyPrefix(ctx.Now(), i, u, ToCome(sock.script));
      ok, wild := OldTurn(ctx, i, sock, st, u);
      done, first := true, [];
    } else {
      ok, done, st, first := Turn(ctx, i, sock, st, u);
    }
    if done {
      assert kept + [] == kept;
    }
  }

  /**
   * When a call is wild: it must read a header from a chunk that it let go of. It does so when
   * nobody else holds that chunk, and not while somebody else does and no record is complete.
   */
  ghost predicate WildOnlyIf(h: Heap, c: Conn, script: seq<ReadEvent>, wild: bool) {
    var hadData := script != [] && script[0].Data?;
    var may := ParsesOld(h, c, hadData) && |Unread(h, c)| >= HEADER_LEN && GoesOn(script, c.state);
    && (wild ==> may)
    && (may && c.chunk.value in h ==>
          && (h[c.chunk.value].refs <= 1 ==> wild)
          && (h[c.chunk.value].refs > 1 && !Complete(Unread(h, c)) ==> !wild))
  }

  /** The turns after the first, which got `first`. */
  method LaterTurns(ctx: Context, i: nat, sock: Socket, st: Loop, ghost kept: seq<byte>, ghost first: seq<byte>,
                    ghost all: seq<byte>, ghost s: Snapshot)
    returns (ok: bool, ghost received: seq<byte>, ghost k: nat)
    requires ctx.Inv() && sock.Valid() && i < |ctx.conns| && ctx.conns[i].state != Free && first != []
    requires st.readLen == 0 && AtTop(ctx.heap, ctx.conns[i], st, Tail(kept + first))
    requires StaysTimely(s, ctx.Now(), i) && i < |s.conns|
    requires first + ToCome(sock.script) == all && TimelyAll(s, i, Packets(kept + all))
    requires Completed(s.log, ctx.log, ctx.rl.idOffset, |ctx.rl.rs|, kept + first)
    modifies ctx`heap, ctx`nextId, ctx`track, ctx`log, ctx`conns, ctx.rl`rs, ctx.rl`entries, ctx.rl`hand, sock
    ensures ctx.InvFreed(i) && (ok ==> ctx.Inv()) && sock.Valid()
    ensures OthersSame(old(ctx.conns), ctx.conns, i) && ctx.conns[i].state != Free
    ensures StaysTimely(s, ctx.Now(), i)
    ensures first <= received && sock.taken == old(sock.taken) + received[|first|..]
    ensures received + ToCome(sock.script) == all
    ensures AllData(old(sock.script)) ==> (ok ==> received == all) && (!ok ==> |s.log| < |ctx.log|)
    ensures ok ==> Completed(s.log, ctx.log, ctx.rl.idOffset, |ctx.rl.rs|, kept + received)
    ensures ok ==> Unread(ctx.heap, ctx.conns[i]) == Tail(kept + received)
    ensures ok && Unread(ctx.heap, ctx.conns[i]) != [] ==> Snug(ctx.heap, ctx.conns[i])
    ensures k > 0
    ensures !ok ==> Interrupted(s.log, ctx.log, ctx.rl.idOffset, |ctx.rl.rs|, kept, first, received, k,
                                Unread(ctx.heap, ctx.conns[i]))
  {
    hide Good, IsPowerOf2, Packets, Tail, TimelyAll, StaysTimely, ToCome, Size, AtTop, FreedAt, AllKnown, Snug,
      Completed, Interrupted, Unread, AllData;
    var cur, done := st, false;
    assert first[|first|..] == [];
    GoodFreed(ctx.Now(), i);
    ok, received, k := true, first, |first|;
    while ok && !done
      invariant ctx.InvFreed(i) && (ok ==> ctx.Inv()) && sock.Valid() && k > 0
      invariant OthersSame(old(ctx.conns), ctx.conns, i) && ctx.conns[i].state != Free
      invariant first <= received && sock.taken == old(sock.taken) + received[|first|..]
      invariant received + ToCome(sock.script) == all && StaysTimely(s, ctx.Now(), i)
      invariant AllData(old(sock.script)) ==> AllData(sock.script) && (done ==> ToCome(sock.script) == [])
      invariant !ok && AllData(old(sock.script)) ==> |s.log| < |ctx.log|
      invariant ok ==> Completed(s.log, ctx.log, ctx.rl.idOffset, |ctx.rl.rs|, kept + received)
      invariant ok && !done ==> cur.readLen == 0 && AtTop(ctx.heap, ctx.conns[i], cur, Tail(kept + received))
      invariant ok && done ==> Unread(ctx.heap, ctx.conns[i]) == Tail(kept + received)
      invariant ok && done && Unread(ctx.heap, ctx.conns[i]) != [] ==> Snug(ctx.heap, ctx.conns[i])
      invariant !ok ==> Interrupted(s.log, ctx.log, ctx.rl.idOffset, |ctx.rl.rs|, kept, first, received, k,
                                    Unread(ctx.heap, ctx.conns[i]))
      decreases ok && !done, Size(sock.script)
    {
      k := |received|;
      ok, done, cur, received := TurnOn(ctx, i, sock, cur, kept, first, received, all, s);
    }
  }

  /**
   * fcgi_recv_response. When the call is `wild` it has come to read a header from a freed chunk, and
   * the model stops there.
   */
  method RecvResponse(ctx: Context, i: nat, sock: Socket)
    returns (ok: bool, wild: bool, ghost first: seq<byte>, ghost received: seq<byte>, ghost k: nat)
    requires ctx.Inv() && sock.Valid() && i < |ctx.conns| && ctx.conns[i].state != Free
    requires TimelyAll(ctx.Now(), i, Packets(KeptAtCall(ctx.heap, ctx.conns[i], sock.HasData()) + ToCome(sock.script)))
    modifies ctx`heap, ctx`nextId, ctx`track, ctx`log, ctx`conns, ctx.rl`rs, ctx.rl`entries, ctx.rl`hand, sock
    ensures ctx.InvFreed(i) && (ok || wild ==> ctx.Inv()) && OthersSame(old(ctx.conns), ctx.conns, i)
    ensures ctx.conns[i].state != Free && sock.Valid()
    ensures WildOnlyIf(old(ctx.heap), old(ctx.conns[i]), old(sock.script), wild) && (wild ==> !ok && received == [])
    ensures wild ==> old(ctx.log) <= ctx.log
                     <= old(ctx.log) + Packets(old(KeptAtCall(ctx.heap, ctx.conns[i], sock.HasData())))
    ensures !ok && !wild ==>
              || ctx.conns[i].state == Closing
              || (ctx.conns[i].state == old(ctx.conns[i].state) && !MayTurn(old(ctx.conns[i].state), Closing))
    ensures sock.taken == old(sock.taken) + received && received + ToCome(sock.script) == ToCome(old(sock.script))
    ensures first <= received
    ensures FitsIn(old(sock.script), old(FirstRoom(ctx.heap, ctx.conns[i]))) ==> first == old(sock.script)[0].bytes
    ensures old(sock.HasData()) <==> received != []
    ensures StaysTimely(old(ctx.Now()), ctx.Now(), i)
    ensures ok ==> Completed(old(ctx.log), ctx.log, ctx.rl.idOffset, |ctx.rl.rs|,
                             old(KeptAtCall(ctx.heap, ctx.conns[i], sock.HasData())) + received)
    ensures ok ==> LeftUnread(old(KeptAtCall(ctx.heap, ctx.conns[i], sock.HasData())), old(sock.HasData()), received)
                   == Unread(ctx.heap, ctx.conns[i])
    ensures ok && received != [] && Unread(ctx.heap, ctx.conns[i]) != [] ==> Snug(ctx.heap, ctx.conns[i])
    ensures ok && AllData(old(sock.script)) ==> received == ToCome(old(sock.script))
    ensures !ok && !wild ==>
              BrokeOff(old(ParsesOld(ctx.heap, ctx.conns[i], sock.HasData())), old(ctx.log), ctx.log, ctx.rl.idOffset,
                       |ctx.rl.rs|, old(KeptAtCall(ctx.heap, ctx.conns[i], sock.HasData())), first, received, k,
                       Unread(ctx.heap, ctx.conns[i]))
    ensures !ok && AllData(old(sock.script)) && received != [] ==> |old(ctx.log)| < |ctx.log|
    ensures !ok && !wild && old(sock.script) == [] ==> |old(ctx.log)| < |ctx.log|
    ensures !ok && k == 0 && received != [] ==>
              Room(ctx.heap, ctx.conns[i]) == old(FirstRoom(ctx.heap, ctx.conns[i])) - |received|
  {
    hide Good, IsPowerOf2, Packets, Tail, TimelyAll, StaysTimely, ToCome, Size, AtTop, FreedAt, AllKnown, Snug,
      Completed, Interrupted, BrokeOff, KeptAtCall, LeftUnread, Unread, FirstRoom, Room, FitsIn, WildOnlyIf,
      AllData;
    ghost var s, kept, all := ctx.Now(), KeptAtCall(ctx.heap, ctx.conns[i], sock.HasData()), ToCome(sock.script);
    ghost var stale := ParsesOld(ctx.heap, ctx.conns[i], sock.HasData());
    var done, st;
    ok, wild, done, st, first := FirstTurn(ctx, i, sock);
    received, k := first, 0;
    FirstGrows(stale, s.log, ctx.log, ctx.rl.idOffset, |ctx.rl.rs|, kept, first, Unread(ctx.heap, ctx.conns[i]));
    if ok && !done {
      ok, received, k := LaterTurns(ctx, i, sock, st, kept, first, all, s);
      LeftAfterData(kept, received);
      WithData(stale, s.log, ctx.log, ctx.rl.idOffset, |ctx.rl.rs|, kept, first, received, k,
               Unread(ctx.heap, ctx.conns[i]));
    }
    if !ok && !wild {
      ghost var now := ctx.Now();
      CloseOnError(ctx, i);
      StaysTrans(s, now, ctx.Now(), i);
      SameUnread(ctx.heap, now.conns[i], ctx.conns[i]);
    }
  }

  lemma FirstGrows(stale: bool, log: seq<Packet>, log': seq<Packet>, off: nat, n: nat, kept: seq<byte>,
                   first: seq<byte>, unread: seq<byte>)
    ensures BrokeOff(stale, log, log', off, n, kept, first, first, 0, unread) && first != [] ==> |log| < |log'|
  {}

  lemma WithData(stale: bool, log: seq<Packet>, log': seq<Packet>, off: nat, n: nat, kept: seq<byte>,
                 first: seq<byte>, received: seq<byte>, k: nat, unread: seq<byte>)
    ensures !stale && Interrupted(log, log', off, n, kept, first, received, k, unread)
            ==> BrokeOff(stale, log, log', off, n, kept, first, received, k, unread)
  {}

  lemma LeftAfterData(kept: seq<byte>, received: seq<byte>)
    ensures LeftUnread(kept, true, received) == Tail(kept + received)
  {}

  lemma NoneKnown(off: nat, n: nat)
    ensures AllKnown(off, n, [])
  {}

  lemma EmptyStream()
    ensures Packets([]) == [] && Tail([]) == []
  {}

  /** The pointers as they are set up before the loop. */
  method Begin(ctx: Context, i: nat) returns (st: Loop)
    requires ctx.Inv() && i < |ctx.conns|
    ensures AtTop(ctx.heap, ctx.conns[i], st, Unread(ctx.heap, ctx.conns[i]))
    ensures st.readLen == |Unread(ctx.heap, ctx.conns[i])| && st.inherit == 0 && st.pkgSize == 0
    ensures st.writeLen == Room(ctx.heap, ctx.conns[i])
  {
    hide Good, IsPowerOf2;
    st := Loop(0, 0, 0, 0);
    var c := ctx.conns[i].chunk;
    if c.Some? {
      ConnChunkLive(ctx.Now(), i);
      ChunkBounds(ctx.Now(), c.value);
      var ch := ctx.heap[c.value];
      st := Loop(|ch.data| - ch.write, ch.write - ch.read, 0, 0);
    }
  }

  /** A later turn: everything received so far has been parsed up to its tail. */
  method TurnOn(ctx: Context, i: nat, sock: Socket, st: Loop, ghost kept: seq<byte>, ghost first: seq<byte>,
                ghost before: seq<byte>, ghost all: seq<byte>, ghost s: Snapshot)
    returns (ok: bool, done: bool, st': Loop, ghost received: seq<byte>)
    requires ctx.Inv() && sock.Valid() && i < |ctx.conns| && ctx.conns[i].state != Free
    requires st.readLen == 0 && AtTop(ctx.heap, ctx.conns[i], st, Tail(kept + before))
    requires StaysTimely(s, ctx.Now(), i) && i < |s.conns|
    requires before + ToCome(sock.script) == all && TimelyAll(s, i, Packets(kept + all))
    requires Completed(s.log, ctx.log, ctx.rl.idOffset, |ctx.rl.rs|, kept + before)
    requires before != [] && first <= before
    modifies ctx`heap, ctx`nextId, ctx`track, ctx`log, ctx`conns, ctx.rl`rs, ctx.rl`entries, ctx.rl`hand, sock
    ensures ctx.InvFreed(i) && (ok ==> ctx.Inv()) && sock.Valid()
    ensures OthersSame(old(ctx.conns), ctx.conns, i) && ctx.conns[i].state != Free
    ensures StaysTimely(s, ctx.Now(), i)
    ensures before <= received <= all && sock.taken == old(sock.taken) + received[|before|..]
    ensures received + ToCome(sock.script) == all
    ensures !done ==> Size(sock.script) < Size(old(sock.script))
    ensures ok ==> Completed(s.log, ctx.log, ctx.rl.idOffset, |ctx.rl.rs|, kept + received)
    ensures ok && !done ==> st'.readLen == 0 && AtTop(ctx.heap, ctx.conns[i], st', Tail(kept + received))
    ensures ok && done ==> Unread(ctx.heap, ctx.conns[i]) == Tail(kept + received)
    ensures ok && done && Unread(ctx.heap, ctx.conns[i]) != [] ==> Snug(ctx.heap, ctx.conns[i])
    ensures AllData(old(sock.script)) ==> AllData(sock.script) && (done ==> ToCome(sock.script) == [])
    ensures !ok && AllData(old(sock.script)) ==> |s.log| < |ctx.log|
    ensures !ok ==> Interrupted(s.log, ctx.log, ctx.rl.idOffset, |ctx.rl.rs|, kept, first, received, |before|,
                                Unread(ctx.heap, ctx.conns[i]))
  {
    hide Good, IsPowerOf2, Packets, Tail, TimelyAll, StaysTimely, ToCome, Size, FreedAt, AllKnown, Completed,
      Interrupted, Snug, Unread, Room, AllData, Need, Complete;
    ghost var x, log := kept + before, ctx.log;
    ghost var u, now, coming := Tail(x), ctx.Now(), ToCome(sock.script);
    NothingRead(ctx.heap, ctx.conns[i], st, u);
    hide AtTop, KeptOf, FitsIn;
    TimelyAllCarries(s, now, i, Packets(kept + all));
    assert kept + all == x + coming;
    TimelySuffix(now, i, x, coming);
    ghost var got;
    ok, done, st', got := Turn(ctx, i, sock, st, u);
    received := before + got;
    StaysInRange(s, now, i);
    StaysTrans(s, now, ctx.Now(), i);
    StaysInRange(s, ctx.Now(), i);
    assert received + ToCome(sock.script) == before + (got + ToCome(sock.script));
    SoFar(kept, before, got, s.log, ctx.rl.idOffset, |ctx.rl.rs|);
    TurnTells(s.log, log, ctx.log, ctx.rl.idOffset, |ctx.rl.rs|, kept, first, before, got);
    if done {
      assert received == before;
    }
  }

  /** With nothing in the read pointer, all that is unparsed is inherited. */
  lemma NothingRead(h: Heap, c: Conn, st: Loop, u: seq<byte>)
    requires AtTop(h, c, st, u) && st.readLen == 0
    ensures KeptOf(st, u) == u && (u != [] ==> st.inherit > 0)
  {}

  /** One more turn, in the terms of the whole call. */
  lemma TurnTells(log: seq<Packet>, mid: seq<Packet>, log': seq<Packet>, off: nat, n: nat, kept: seq<byte>,
                  first: seq<byte>, before: seq<byte>, got: seq<byte>)
    requires Completed(log, mid, off, n, kept + before) && before != [] && first <= before
    ensures |log| <= |mid|
    ensures log' == mid + Packets(Tail(kept + before) + got) && AllKnown(off, n, Packets(Tail(kept + before) + got))
            ==> Completed(log, log', off, n, kept + (before + got))
    ensures got == [] && log' == mid ==> Completed(log, log', off, n, kept + (before + got))
    ensures mid <= log' <= mid + Packets(Tail(kept + before) + got)
            ==> Interrupted(log, log', off, n, kept, first, before + got, |before|, Tail(kept + before) + got)
  {
    hide Packets, Tail, AllKnown;
    SoFar(kept, before, got, log, off, n);
    assert before + [] == before;
  }

  /** One more turn's bytes, in the terms of the whole call. */
  lemma SoFar(kept: seq<byte>, before: seq<byte>, got: seq<byte>, log: seq<Packet>, off: nat, n: nat)
    ensures var x, received := kept + before, before + got;
            && kept + received == x + got && received[..|before|] == before && received[|before|..] == got
            && log + Packets(x) + Packets(Tail(x) + got) == log + Packets(kept + received)
            && Tail(kept + received) == Tail(Tail(x) + got)
            && (AllKnown(off, n, Packets(x)) && AllKnown(off, n, Packets(Tail(x) + got))
                ==> AllKnown(off, n, Packets(kept + received)))
  {
    hide Packets, Tail, Known;
    var x := kept + before;
    StreamGrows(x, got);
    assert x + got == kept + (before + got);
    assert log + Packets(x) + Packets(Tail(x) + got) == log + (Packets(x) + Packets(Tail(x) + got));
  }

  // ----- when the stream survives a call -----------------------------------------------------------

  /** What a call would do if it lost nothing: the packets and the tail of old and new bytes. */
  ghost predicate Lossless(unread: seq<byte>, room: int, hadData: bool, received: seq<byte>) {
    var kept := KeptFrom(unread, room, hadData);
    && Packets(kept + received) == Packets(unread + received)
    && LeftUnread(kept, hadData, received) == Tail(unread + received)
  }

  /**
   * A call keeps the stream whole exactly when it starts with nothing unread, or with room for a
   * header and a first read that returns bytes.
   */
  lemma LosslessIff(unread: seq<byte>, room: int, hadData: bool, received: seq<byte>)
    requires !Complete(unread) && (!hadData ==> received == [])
    ensures Lossless(unread, room, hadData, received) <==> unread == [] || (room >= HEADER_LEN && hadData)
  {
    if unread != [] && hadData && room < HEADER_LEN {
      assert [] + received == received;
      assert |unread + received| != |received|;
      if Packets(received) == Packets(unread + received) && Tail(received) == Tail(unread + received) {
        FramingInjective(received, unread + received);
      }
    } else if unread != [] && !hadData {
      assert unread + [] == unread;
      assert Tail(unread) == unread;
    }
  }

  /** Streams with the same packets and the same tail are the same. */
  lemma FramingInjective(a: seq<byte>, b: seq<byte>)
    requires Packets(a) == Packets(b) && Tail(a) == Tail(b)
    ensures a == b
  {
    hide Packets, Tail, Complete;
    StreamSplit(a);
    StreamSplit(b);
  }

  /**
   * A record cut `n` bytes in, with less room left behind it than a header needs, as in the chunk
   * that is made to its measure: the bytes before the cut are lost although the rest arrives.
   */
  lemma LossForRoom(p: Packet, n: nat)
    requires 0 < n < |p| < n + HEADER_LEN
    ensures p[..n] + p[n..] == p && Packets(p) == [p] && Packets(p[n..]) == []
    ensures !Lossless(p[..n], |p| - n, true, p[n..])
  {
    hide Lossless, ReadHeader, PacketSize;
    assert p[..n] + p[n..] == p;
    OneRecord(p);
    TooShort(p[n..]);
    CutShort(p, n);
    LosslessIff(p[..n], |p| - n, true, p[n..]);
  }

  lemma OneRecord(p: Packet)
    ensures Packets(p) == [p] && Tail(p) == []
  {
    FramingUnique([p], []);
    assert Joined([p]) == p && p + [] == p;
  }

  lemma TooShort(b: seq<byte>)
    requires |b| < HEADER_LEN
    ensures Packets(b) == [] && Tail(b) == b
  {}

  lemma CutShort(p: Packet, n: nat)
    requires n < |p|
    ensures !Complete(p[..n])
  {
    if n >= HEADER_LEN {
      PrefixHeader(p[..n], p);
    }
  }

  /** A 9000-byte record of which 8995 bytes came first. */
  lemma LossForRoomExample()
    ensures var p := HeaderBytes(Header(1, STDOUT, 1, 8992, 0)) + [0] + seq(8992, _ => 7);
            |p| == 9000 && PacketSize(p) == 9000 && !Lossless(p[..8995], 5, true, p[8995..])
  {
    var h := Header(1, STDOUT, 1, 8992, 0);
    var p: seq<byte> := HeaderBytes(h) + [0] + seq(8992, _ => 7);
    HeaderRoundTrip(h, 0);
    PrefixHeader(HeaderBytes(h) + [0], p);
    hide ReadHeader, HeaderBytes, Lossless;
    LossForRoom(p, 8995);
  }

  /** A spurious wake-up in the middle of a record loses its first bytes. */
  lemma LossExample(first: seq<byte>)
    requires 0 < |first| < HEADER_LEN
    ensures !Lossless(first, CHUNK_DATA - |first|, false, [])
  {
    LosslessIff(first, CHUNK_DATA - |first|, false, []);
  }

  // ----- the calls of one connection ------------------------------------------------------------------

  /** The condition of LosslessIff, as it can be checked before a call. */
  predicate CallIsLossless(ctx: Context, i: nat, sock: Socket)
    requires i < |ctx.conns|
    reads ctx, sock
  {
    || Unread(ctx.heap, ctx.conns[i]) == []
    || (Room(ctx.heap, ctx.conns[i]) >= HEADER_LEN && sock.HasData())
  }

  /**
   * Successive calls on a connection, as long as each keeps the stream whole: however the socket
   * cuts the stream into calls and reads, the records logged are those of the whole stream.
   */
  method RecvCalls(ctx: Context, i: nat, sock: Socket, calls: nat) returns (ok: bool, made: nat, ghost got: seq<byte>)
    requires ctx.Inv() && sock.Valid() && i < |ctx.conns| && ctx.conns[i].state != Free
    requires TimelyAll(ctx.Now(), i, Packets(Unread(ctx.heap, ctx.conns[i]) + ToCome(sock.script)))
    modifies ctx`heap, ctx`nextId, ctx`track, ctx`log, ctx`conns, ctx.rl`rs, ctx.rl`entries, ctx.rl`hand, sock
    ensures made <= calls && |ctx.conns| == |old(ctx.conns)| && sock.taken == old(sock.taken) + got
    ensures ok ==> ctx.Inv() && (made < calls ==> !CallIsLossless(ctx, i, sock))
    ensures ok && made == 0 ==> ctx.log == old(ctx.log)
    ensures ok && made > 0 ==> ctx.log == old(ctx.log) + Packets(old(Unread(ctx.heap, ctx.conns[i])) + got)
    ensures ok && made > 0 ==> Unread(ctx.heap, ctx.conns[i]) == Tail(old(Unread(ctx.heap, ctx.conns[i])) + got)
  {
    hide Good, IsPowerOf2, Packets, Tail, TimelyAll, StaysTimely, ToCome, FreedAt, Unread, Room, CallIsLossless,
        InStream;
    ghost var s, unread, all := ctx.Now(), Unread(ctx.heap, ctx.conns[i]), ToCome(sock.script);
    ok, made, got := true, 0, [];
    TimelySame(s, s, i);
    StreamStarts(s.log, unread);
    while made < calls && CallIsLossless(ctx, i, sock)
      invariant made <= calls && ok && ctx.Inv() && sock.Valid() && |ctx.conns| == |old(ctx.conns)|
      invariant ctx.conns[i].state != Free && StaysTimely(s, ctx.Now(), i)
      invariant sock.taken == old(sock.taken) + got && got + ToCome(sock.script) == all
      invariant InStream(s.log, ctx.log, unread, got, Unread(ctx.heap, ctx.conns[i]), made == 0)
    {
      ok, got := NextOfCalls(ctx, i, sock, s, unread, got, made == 0);
      made := made + 1;
      if !ok {
        return;
      }
    }
    StreamTells(s.log, ctx.log, unread, got, Unread(ctx.heap, ctx.conns[i]), made == 0);
  }

  /** The calls so far: none, or all that came was handed over up to its tail. */
  ghost predicate InStream(log: seq<Packet>, log': seq<Packet>, unread: seq<byte>, got: seq<byte>, left: seq<byte>,
                           none: bool)
  {
    if none then got == [] && log' == log && left == unread
    else log' == log + Packets(unread + got) && left == Tail(unread + got)
  }

  lemma StreamStarts(log: seq<Packet>, unread: seq<byte>)
    ensures InStream(log, log, unread, [], unread, true)
  {}

  lemma StreamTells(log: seq<Packet>, log': seq<Packet>, unread: seq<byte>, got: seq<byte>, left: seq<byte>, none: bool)
    requires InStream(log, log', unread, got, left, none)
    ensures none ==> log' == log
    ensures !none ==> log' == log + Packets(unread + got) && left == Tail(unread + got)
  {}

  /** One of the calls. */
  method NextOfCalls(ctx: Context, i: nat, sock: Socket, ghost s: Snapshot, ghost unread: seq<byte>,
                     ghost got: seq<byte>, ghost none: bool)
    returns (ok: bool, ghost got': seq<byte>)
    requires ctx.Inv() && sock.Valid() && i < |ctx.conns| && ctx.conns[i].state != Free && CallIsLossless(ctx, i, sock)
    requires StaysTimely(s, ctx.Now(), i) && i < |s.conns|
    requires TimelyAll(s, i, Packets(unread + (got + ToCome(sock.script))))
    requires InStream(s.log, ctx.log, unread, got, Unread(ctx.heap, ctx.conns[i]), none)
    modifies ctx`heap, ctx`nextId, ctx`track, ctx`log, ctx`conns, ctx.rl`rs, ctx.rl`entries, ctx.rl`hand, sock
    ensures sock.Valid() && |ctx.conns| == |old(ctx.conns)| && ctx.conns[i].state != Free
    ensures StaysTimely(s, ctx.Now(), i) && (ok ==> ctx.Inv())
    ensures got <= got' && sock.taken == old(sock.taken) + got'[|got|..]
    ensures got' + ToCome(sock.script) == got + ToCome(old(sock.script))
    ensures ok ==> InStream(s.log, ctx.log, unread, got', Unread(ctx.heap, ctx.conns[i]), false)
  {
    hide Good, IsPowerOf2, Packets, Tail, TimelyAll, StaysTimely, ToCome, FreedAt, AllKnown, BrokeOff, FirstRoom,
      FitsIn, WildOnlyIf, Snug, AllData;
    ghost var now, u, coming := ctx.Now(), Unread(ctx.heap, ctx.conns[i]), ToCome(sock.script);
    TimelyAllCarries(s, now, i, Packets(unread + (got + coming)));
    NextCall(now, i, unread, got, u, coming, none);
    ghost var first, received, k;
    assert KeptAtCall(ctx.heap, ctx.conns[i], sock.HasData()) == u;
    hide Unread, Room;
    var wild;
    ok, wild, first, received, k := RecvResponse(ctx, i, sock);
    StaysTrans(s, now, ctx.Now(), i);
    got' := got + received;
    ghost var x := unread + got;
    assert unread + got' == x + received;
    if none {
      assert x == u;
    } else {
      StreamGrows(x, received);
      assert s.log + Packets(x) + Packets(u + received) == s.log + (Packets(x) + Packets(u + received));
    }
  }

  lemma NextCall(s: Snapshot, i: nat, unread: seq<byte>, got: seq<byte>, u: seq<byte>, coming: seq<byte>, first: bool)
    requires i < |s.conns| && TimelyAll(s, i, Packets(unread + (got + coming)))
    requires if first then got == [] && u == unread else u == Tail(unread + got)
    ensures TimelyAll(s, i, Packets(u + coming))
  {
    hide TimelyAll, Packets, Tail;
    assert unread + (got + coming) == (unread + got) + coming;
    if first {
      assert unread + got == u;
    } else {
      TimelySuffix(s, i, unread + got, coming);
    }
  }

  // ----- the next connection of a slot ----------------------------------------------------------------

  /** A call hands over the records of its own bytes and no others, and leaves their tail. */
  ghost predicate OwnOnly(kept: seq<byte>, hadData: bool, received: seq<byte>) {
    Packets(kept + received) == Packets(received) && LeftUnread(kept, hadData, received) == Tail(received)
  }

  /** For one call: exactly when it kept nothing, or an incomplete rest and got no data at first. */
  lemma OwnOnlyIff(kept: seq<byte>, hadData: bool, received: seq<byte>)
    requires hadData <==> received != []
    ensures OwnOnly(kept, hadData, received) <==> kept == [] || (!hadData && !Complete(kept))
  {
    EmptyStream();
    if hadData {
      assert |kept + received| == |kept| + |received|;
      if OwnOnly(kept, hadData, received) {
        FramingInjective(kept + received, received);
      }
      assert [] + received == received;
    } else {
      assert kept + [] == kept;
    }
  }

  /** The next call, if it reads nothing, reads a header from a chunk that it has freed. */
  ghost predicate ReadsFreed(unread: seq<byte>, room: int, shared: bool, hadData: bool) {
    !hadData && room < HEADER_LEN && |unread| >= HEADER_LEN && !shared
  }

  /** The next call is about its own bytes only, and touches no freed chunk. */
  ghost predicate StartsFresh(unread: seq<byte>, room: int, shared: bool, hadData: bool, received: seq<byte>) {
    !ReadsFreed(unread, room, shared, hadData) && OwnOnly(KeptFrom(unread, room, hadData), hadData, received)
  }

  /**
   * A slot is freed with `unread` bytes in its chunk and `room` behind them; `shared` says whether
   * a request holds the chunk too. Whatever its next connection receives, log and tail are those of
   * that connection's own bytes and no freed chunk is read, if and only if nothing was unread, or
   * it was an incomplete record without room for a header behind it, which the next call drops,
   * in a chunk that stays or of which not even the header had come.
   */
  lemma FreshStartIff(unread: seq<byte>, room: int, shared: bool)
    ensures (forall hadData, received :: (hadData <==> received != []) ==>
               StartsFresh(unread, room, shared, hadData, received))
       <==> unread == [] || (room < HEADER_LEN && !Complete(unread) && (shared || |unread| < HEADER_LEN))
  {
    hide OwnOnly, Complete;
    forall hadData, received | hadData <==> received != []
      ensures OwnOnly(KeptFrom(unread, room, hadData), hadData, received)
         <==> KeptFrom(unread, room, hadData) == [] || (!hadData && !Complete(unread))
    {
      OwnOnlyIff(KeptFrom(unread, room, hadData), hadData, received);
    }
    assert StartsFresh(unread, room, shared, true, [0]) <==> KeptFrom(unread, room, true) == [];
    assert StartsFresh(unread, room, shared, false, [])
      <==> !ReadsFreed(unread, room, shared, false) && (unread == [] || !Complete(unread));
  }

  /** As long as its first read returns bytes: exactly when nothing was unread, or there was no room for a header. */
  lemma FreshWithDataIff(unread: seq<byte>, room: int)
    ensures (forall received :: received != [] ==> OwnOnly(KeptFrom(unread, room, true), true, received))
       <==> unread == [] || room < HEADER_LEN
  {
    hide OwnOnly;
    var kept := KeptFrom(unread, room, true);
    forall received | received != [] ensures OwnOnly(kept, true, received) <==> kept == [] {
      OwnOnlyIff(kept, true, received);
    }
    assert OwnOnly(kept, true, [0]) <==> kept == [];
  }

  /** A whole record, no room and no data: the record of the old connection is handed over again. */
  lemma OldRecordAgain(p: Packet, room: int)
    ensures KeptFrom(p, room, false) == p && Packets(p + []) == [p] && !OwnOnly(KeptFrom(p, room, false), false, [])
  {
    OneRecord(p);
    assert p + [] == p;
    EmptyStream();
  }

  // ----- the chunk that is parsed ---------------------------------------------------------------------

  /** The heap in which the first inner loop of a call runs, when chunk `a` is the new one. */
  ghost function FirstHeap(s: Snapshot, i: nat, a: ChunkId, ch: Chunk): Heap
    requires i < |s.conns|
    requires s.conns[i].chunk.Some? ==> s.conns[i].chunk.value in s.heap && s.conns[i].chunk.value != a
  {
    if Room(s.heap, s.conns[i]) >= HEADER_LEN then s.heap
    else if s.conns[i].chunk.Some? then Release(s.heap[a := ch], s.conns[i].chunk.value)
    else s.heap[a := ch]
  }

  /**
   * For every worker in order: the first inner loop of a call reads no header from a freed chunk,
   * if and only if less than a header was unread, or there was room for one, or bytes came, or
   * somebody else holds the chunk.
   */
  lemma ParsedChunkLiveIff(s: Snapshot, i: nat, a: ChunkId, ch: Chunk, hadData: bool)
    requires Good(s) && i < |s.conns| && s.conns[i].chunk.Some? && a !in s.heap
    ensures s.conns[i].chunk.value in s.heap && s.conns[i].chunk.value != a
    ensures var b, unread := s.conns[i].chunk.value, Unread(s.heap, s.conns[i]);
            (hadData || |unread| < HEADER_LEN || b in FirstHeap(s, i, a, ch))
            <==> |unread| < HEADER_LEN || Room(s.heap, s.conns[i]) >= HEADER_LEN || hadData
                 || Holders(s.conns, s.reqs)[b] > 1
  {
    hide Good, Holders, Unread, Room;
    ConnChunkLive(s, i);
    GoodRefs(s);
  }
}
