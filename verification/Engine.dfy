/**
 * What the per-thread FastCGI context keeps true: chunk reference counts, the bytes held for each
 * request, the client sockets, the connections and the requests being sent
 * (plugins/fastcgi/fastcgi.c, fcgi_fd.c, request.c, chunk.c).
 */
module World {
  import opened Bytes
  import opened Protocol
  import opened Records
  import opened Chunks
  import opened Requests

  /** enum fcgi_fd_state; `Free` is FCGI_FD_AVAILABLE. */
  datatype ConnState = Free | Ready | Sending | Receiving | Closing | Asleep

  /** struct fcgi_fd. */
  datatype Conn = Conn(
    state: ConnState, fd: int, serverId: nat, locationId: nat,
    remain: nat, beginReq: Option<nat>, chunk: Option<ChunkId>)

  /** The transitions fcgi_fd_set_state allows. */
  predicate MayTurn(from: ConnState, to: ConnState) {
    match to
    case Free => from == Closing || from == Asleep
    case Ready => from == Free || from == Receiving || from == Asleep
    case Sending => from == Ready
    case Receiving => from == Sending
    case Closing => from == Ready || from == Receiving
    case Asleep => from == Ready
  }

  /**
   * Bookkeeping per request that the program does not keep: the prepared request and what of it
   * has gone to the server, the place in the record log where its answer begins (once it has been
   * sent whole), and how much of the answer has gone to the client.
   */
  datatype Track = Track(whole: seq<byte>, out: seq<byte>, since: Option<nat>, gone: nat)

  const NO_TRACK := Track([], [], None, 0)

  // ----- the answer of a request ----------------------------------------------------------------

  /** The bodies of the STDOUT records for `id`, in order of arrival. */
  function Stdout(log: seq<Packet>, id: nat): seq<byte> {
    if log == [] then [] else
      (if ReadHeader(log[0]).kind == STDOUT && ReadHeader(log[0]).reqId == id then Body(log[0]) else [])
      + Stdout(log[1..], id)
  }

  lemma {:induction false} StdoutAppend(log: seq<Packet>, p: Packet, id: nat)
    ensures Stdout(log + [p], id) == Stdout(log, id)
      + if ReadHeader(p).kind == STDOUT && ReadHeader(p).reqId == id then Body(p) else []
  {
    hide ReadHeader;
    if log == [] {
      assert log + [p] == [p] && [p][1..] == [];
      assert Stdout([], id) == [];
    } else {
      assert (log + [p])[1..] == log[1..] + [p];
      StdoutAppend(log[1..], p, id);
    }
  }

  /** The same in the bytes of the record: type 6, the id in bytes 2 and 3, the length in 4 and 5. */
  lemma AnswerOnTheWire(log: seq<Packet>, p: Packet, id: nat)
    ensures 8 + 256 * p[4] as int + p[5] as int <= |p|
    ensures Stdout(log + [p], id) == Stdout(log, id)
      + if p[1] == 6 && 256 * p[2] as int + p[3] as int == id then p[8..8 + 256 * p[4] as int + p[5] as int] else []
  {
    StdoutAppend(log, p, id);
    hide Stdout;
  }

  /** The vector holds the answer so far, less what has gone to the client. */
  ghost predicate HoldsAnswer(h: Heap, iov: Iov, t: Track, log: seq<Packet>, id: nat)
    requires IovOk(h, iov)
  {
    && t.since.Some? && t.since.value <= |log|
    && var s := Stdout(log[t.since.value..], id);
       t.gone <= |s| && IovBytes(h, iov) == s[t.gone..]
  }

  ghost predicate Answering(s: ReqState) { s == Sent || s == StreamClosed || s == Ended }

  /** The states in which a client has reason to wait: an answer or a failure is still to come. */
  predicate Awaited(s: ReqState) { s == Assigned || s == Sent || s == StreamClosed }

  /** A client that sleeps is waiting for something: nobody sleeps on an ended or failed request. */
  ghost predicate SleepOk(q: Request) { q.sleeping && q.fd != -1 ==> Awaited(q.state) }

  /** What holds of one request. */
  ghost predicate ReqOk(h: Heap, q: Request, t: Track, log: seq<Packet>, id: nat) {
    && IovOk(h, q.iov) && q.fd >= -1 && SleepOk(q)
    && (q.state == Available ==> q == Reset(q))
    && (q.state == Assigned ==> t.since.None? && t.out == [] && IovBytes(h, q.iov) == t.whole)
    && (q.state == StreamClosed || q.state == Ended ==> t.since.Some?)
    && (q.state != Ended ==> t.gone == 0)
    && (Answering(q.state) && t.since.Some? ==> HoldsAnswer(h, q.iov, t, log, id))
  }

  ghost predicate ReqsOk(h: Heap, rs: seq<Request>, tr: seq<Track>, log: seq<Packet>, off: nat) {
    |tr| == |rs| && forall k :: 0 <= k < |rs| ==> ReqOk(h, rs[k], tr[k], log, off + k)
  }

  // ----- references -----------------------------------------------------------------------------

  function RefOf(c: Conn): multiset<ChunkId> {
    if c.chunk.Some? then multiset{c.chunk.value} else multiset{}
  }

  function ConnRefs(cs: seq<Conn>): multiset<ChunkId> {
    if cs == [] then multiset{} else RefOf(cs[0]) + ConnRefs(cs[1..])
  }

  function ReqRefs(rs: seq<Request>): multiset<ChunkId> {
    if rs == [] then multiset{} else IovRefs(rs[0].iov) + ReqRefs(rs[1..])
  }

  /** All holders of chunks: connections and I/O vector entries. */
  function Holders(cs: seq<Conn>, rs: seq<Request>): multiset<ChunkId> { ConnRefs(cs) + ReqRefs(rs) }

  lemma Regroup(a: multiset<ChunkId>, t: multiset<ChunkId>, t': multiset<ChunkId>, x: multiset<ChunkId>,
      x': multiset<ChunkId>)
    requires t' + x == t + x'
    ensures (a + t') + x == (a + t) + x'
  {
    assert (a + t') + x == a + (t' + x);
  }

  lemma RegroupRight(a: multiset<ChunkId>, t: multiset<ChunkId>, t': multiset<ChunkId>, x: multiset<ChunkId>,
      x': multiset<ChunkId>)
    requires t' + x == t + x'
    ensures (t' + a) + x == (t + a) + x'
  {
    assert (t' + a) + x == a + (t' + x);
  }

  lemma Cancel(a: multiset<ChunkId>, b: multiset<ChunkId>, x: multiset<ChunkId>)
    requires a + x == b + x
    ensures a == b
  {
    forall c ensures a[c] == b[c] {
      assert (a + x)[c] == (b + x)[c];
    }
  }

  lemma {:induction false} ConnRefsUpdate(cs: seq<Conn>, i: nat, c: Conn)
    requires i < |cs|
    ensures ConnRefs(cs[i := c]) + RefOf(cs[i]) == ConnRefs(cs) + RefOf(c)
  {
    hide RefOf;
    if i == 0 {
      assert cs[0 := c][1..] == cs[1..];
    } else {
      assert cs[i := c][1..] == cs[1..][i - 1 := c] && cs[i := c][0] == cs[0] && cs[1..][i - 1] == cs[i];
      ConnRefsUpdate(cs[1..], i - 1, c);
      Regroup(RefOf(cs[0]), ConnRefs(cs[1..]), ConnRefs(cs[1..][i - 1 := c]), RefOf(cs[i]), RefOf(c));
    }
  }

  lemma {:induction false} ReqRefsUpdate(rs: seq<Request>, r: nat, q: Request)
    requires r < |rs|
    ensures ReqRefs(rs[r := q]) + IovRefs(rs[r].iov) == ReqRefs(rs) + IovRefs(q.iov)
  {
    hide IovRefs;
    if r == 0 {
      assert rs[0 := q][1..] == rs[1..];
    } else {
      assert rs[r := q][1..] == rs[1..][r - 1 := q] && rs[r := q][0] == rs[0] && rs[1..][r - 1] == rs[r];
      ReqRefsUpdate(rs[1..], r - 1, q);
      Regroup(IovRefs(rs[0].iov), ReqRefs(rs[1..]), ReqRefs(rs[1..][r - 1 := q]), IovRefs(rs[r].iov), IovRefs(q.iov));
    }
  }

  lemma {:induction false} ConnHolds(cs: seq<Conn>, i: nat)
    requires i < |cs| && cs[i].chunk.Some?
    ensures cs[i].chunk.value in ConnRefs(cs)
  {
    if i > 0 {
      ConnHolds(cs[1..], i - 1);
    }
  }

  lemma {:induction false} ReqHolds(rs: seq<Request>, r: nat, c: ChunkId)
    requires r < |rs| && c in IovRefs(rs[r].iov)
    ensures c in ReqRefs(rs)
  {
    hide IovRefs;
    if r > 0 {
      ReqHolds(rs[1..], r - 1, c);
    }
  }

  // ----- connections ----------------------------------------------------------------------------

  /** A slot has a socket exactly when it is in use, and no two open slots share one. */
  ghost predicate ConnsOk(cs: seq<Conn>) {
    && (forall i :: 0 <= i < |cs| ==> cs[i].fd >= -1 && (cs[i].fd == -1 <==> cs[i].state == Free))
    && (forall i, j :: 0 <= i < |cs| && 0 <= j < |cs| && cs[i].fd == cs[j].fd != -1 ==> i == j)
  }

  /** Connection `c` is sending request `q`: what went out and what is left make the request. */
  ghost predicate BeingSent(h: Heap, c: Conn, q: Request, t: Track) {
    && (q.state == Sent || q.state == Failed) && q.fcgiFd == c.fd
    && t.since.None? && IovOk(h, q.iov)
    && c.remain == IovLength(q.iov) && t.out + IovBytes(h, q.iov) == t.whole
  }

  ghost predicate SendsTo(c: Conn, r: nat) { c.state == Sending && c.beginReq == Some(r) }

  ghost predicate SendingOk(h: Heap, cs: seq<Conn>, rs: seq<Request>, tr: seq<Track>) {
    && |tr| == |rs|
    && (forall i :: 0 <= i < |cs| && cs[i].state == Sending ==> SendingNow(h, cs[i], rs, tr))
    && (forall i, j :: 0 <= i < |cs| && 0 <= j < |cs| && SendSame(cs[i], cs[j]) ==> i == j)
  }

  ghost predicate SendingNow(h: Heap, c: Conn, rs: seq<Request>, tr: seq<Track>)
    requires |tr| == |rs|
  {
    && c.beginReq.Some? && c.beginReq.value < |rs|
    && BeingSent(h, c, rs[c.beginReq.value], tr[c.beginReq.value])
  }

  ghost predicate SendSame(c: Conn, d: Conn) {
    c.state == Sending && d.state == Sending && c.beginReq == d.beginReq
  }

  // ----- everything -----------------------------------------------------------------------------

  ghost predicate HeapOk(h: Heap) {
    forall c :: c in h ==> h[c].read <= h[c].write <= |h[c].data|
  }

  /** The context at a moment, with the bookkeeping beside it. */
  datatype Snapshot = Snapshot(
    heap: Heap, conns: seq<Conn>, reqs: seq<Request>, track: seq<Track>, log: seq<Packet>, off: nat)

  ghost predicate Good(s: Snapshot) {
    && HeapOk(s.heap) && RefsMatch(s.heap, Holders(s.conns, s.reqs))
    && ReqsOk(s.heap, s.reqs, s.track, s.log, s.off)
    && UniqueFds(s.reqs) && ConnsOk(s.conns) && SendingOk(s.heap, s.conns, s.reqs, s.track)
  }

  /** Request `r`, if it is under way, has been sent whole. */
  ghost predicate Whole(s: Snapshot, r: nat) {
    r < |s.reqs| == |s.track| && (s.reqs[r].state == Sent ==> s.track[r].since.Some?)
  }

  /** Connection `i` let go of. */
  ghost function FreedAt(s: Snapshot, i: nat): Snapshot
    requires i < |s.conns|
  {
    s.(conns := s.conns[i := s.conns[i].(fd := -1, state := Free)])
  }

  /** Whoever sends request `r` has its rest to send. */
  lemma Senders(s: Snapshot, r: nat)
    requires Good(s) && r < |s.reqs|
    ensures |s.track| == |s.reqs|
    ensures forall i :: 0 <= i < |s.conns| && SendsTo(s.conns[i], r) ==>
        BeingSent(s.heap, s.conns[i], s.reqs[r], s.track[r])
  {
    hide RefsMatch, Holders, ReqsOk, UniqueFds, ConnsOk, BeingSent;
    forall i | 0 <= i < |s.conns| && SendsTo(s.conns[i], r)
      ensures BeingSent(s.heap, s.conns[i], s.reqs[r], s.track[r])
    {
      assert SendingNow(s.heap, s.conns[i], s.reqs, s.track);
    }
  }

  /** A request that was sent whole, or is not under way, is sent by nobody. */
  lemma NobodySends(s: Snapshot, r: nat)
    requires Good(s) && Whole(s, r) && s.reqs[r].state != Failed
    ensures forall i :: 0 <= i < |s.conns| ==> !SendsTo(s.conns[i], r)
  {
    hide Good;
    Senders(s, r);
    hide IovOk, IovLength, IovBytes;
  }

  // ----- a request changes, its vector does not -------------------------------------------------

  lemma SameVectorRefs(s: Snapshot, r: nat, q: Request)
    requires r < |s.reqs| && q.iov == s.reqs[r].iov
    ensures Holders(s.conns, s.reqs[r := q]) == Holders(s.conns, s.reqs)
  {
    ReqRefsUpdate(s.reqs, r, q);
    Cancel(ReqRefs(s.reqs[r := q]), ReqRefs(s.reqs), IovRefs(q.iov));
  }

  lemma FdsStillUnique(rs: seq<Request>, r: nat, q: Request)
    requires r < |rs| && UniqueFds(rs)
    requires q.fd < 0 || q.fd == rs[r].fd || FdSlots(rs, q.fd) == {}
    ensures UniqueFds(rs[r := q])
  {
    assert forall k :: 0 <= k < |rs| && rs[k].fd == q.fd ==> k in FdSlots(rs, q.fd);
  }

  /** Changing request `r` leaves the connections that send other requests in order. */
  lemma SendingKept(h: Heap, cs: seq<Conn>, rs: seq<Request>, tr: seq<Track>, r: nat, q: Request, t: Track)
    requires SendingOk(h, cs, rs, tr) && r < |rs|
    requires forall i :: 0 <= i < |cs| && SendsTo(cs[i], r) ==> BeingSent(h, cs[i], q, t)
    ensures SendingOk(h, cs, rs[r := q], tr[r := t])
  {
    hide BeingSent;
    forall i | 0 <= i < |cs| && cs[i].state == Sending ensures SendingNow(h, cs[i], rs[r := q], tr[r := t]) {
      assert SendingNow(h, cs[i], rs, tr);
      if cs[i].beginReq.value == r {
        assert SendsTo(cs[i], r);
      }
    }
  }

  lemma ReqsKept(h: Heap, rs: seq<Request>, tr: seq<Track>, log: seq<Packet>, off: nat, r: nat, q: Request, t: Track)
    requires ReqsOk(h, rs, tr, log, off) && r < |rs| && ReqOk(h, q, t, log, off + r)
    ensures ReqsOk(h, rs[r := q], tr[r := t], log, off)
  {}

  /** Request `r` takes new field values; its vector stays. */
  lemma SetRequest(s: Snapshot, r: nat, q: Request, t: Track)
    requires Good(s) && r < |s.reqs| && q.iov == s.reqs[r].iov
    requires ReqOk(s.heap, q, t, s.log, s.off + r)
    requires q.fd < 0 || q.fd == s.reqs[r].fd || FdSlots(s.reqs, q.fd) == {}
    requires forall i :: 0 <= i < |s.conns| && SendsTo(s.conns[i], r) ==> BeingSent(s.heap, s.conns[i], q, t)
    ensures Good(s.(reqs := s.reqs[r := q], track := s.track[r := t]))
  {
    hide ReqOk, BeingSent, Holders, RefsMatch;
    SameVectorRefs(s, r, q);
    FdsStillUnique(s.reqs, r, q);
    SendingKept(s.heap, s.conns, s.reqs, s.track, r, q, t);
    ReqsKept(s.heap, s.reqs, s.track, s.log, s.off, r, q, t);
    hide UniqueFds, SendingOk, ReqsOk, ConnsOk, HeapOk;
  }

  // ----- a connection changes, its chunk does not -----------------------------------------------

  lemma ConnsStillOk(cs: seq<Conn>, i: nat, c: Conn)
    requires ConnsOk(cs) && i < |cs|
    requires c.fd >= -1 && (c.fd == -1 <==> c.state == Free)
    requires c.fd == -1 || c.fd == cs[i].fd || forall j :: 0 <= j < |cs| ==> cs[j].fd != c.fd
    ensures ConnsOk(cs[i := c])
  {}

  lemma SendingStillOk(h: Heap, cs: seq<Conn>, rs: seq<Request>, tr: seq<Track>, i: nat, c: Conn)
    requires SendingOk(h, cs, rs, tr) && i < |cs|
    requires c.state == Sending ==> SendingNow(h, c, rs, tr)
    requires forall j :: 0 <= j < |cs| && j != i ==> !SendSame(c, cs[j])
    ensures SendingOk(h, cs[i := c], rs, tr)
  {
    hide SendingNow;
  }

  /** Connection `i` takes new field values; its chunk stays. */
  lemma SetConn(s: Snapshot, i: nat, c: Conn)
    requires Good(s) && i < |s.conns| && c.chunk == s.conns[i].chunk
    requires c.fd >= -1 && (c.fd == -1 <==> c.state == Free)
    requires c.fd == -1 || c.fd == s.conns[i].fd || forall j :: 0 <= j < |s.conns| ==> s.conns[j].fd != c.fd
    requires c.state == Sending ==> SendingNow(s.heap, c, s.reqs, s.track)
    requires forall j :: 0 <= j < |s.conns| && j != i ==> !SendSame(c, s.conns[j])
    ensures Good(s.(conns := s.conns[i := c]))
  {
    ConnsStillOk(s.conns, i, c);
    SendingStillOk(s.heap, s.conns, s.reqs, s.track, i, c);
    ConnRefsUpdate(s.conns, i, c);
    Cancel(ConnRefs(s.conns[i := c]), ConnRefs(s.conns), RefOf(c));
    hide RefsMatch, UniqueFds, SendingOk, ReqsOk, ConnsOk, HeapOk, SendingNow;
  }

  lemma SameHolders(cs: seq<Conn>, i: nat, c: Conn, rs: seq<Request>)
    requires i < |cs| && c.chunk == cs[i].chunk
    ensures Holders(cs[i := c], rs) == Holders(cs, rs)
  {
    ConnRefsUpdate(cs, i, c);
    Cancel(ConnRefs(cs[i := c]), ConnRefs(cs), RefOf(c));
  }

  /** Letting a connection go keeps the rest in order. */
  lemma GoodFreed(s: Snapshot, i: nat)
    requires Good(s) && i < |s.conns|
    ensures Good(FreedAt(s, i))
  {
    hide Good;
    SetConn(s, i, s.conns[i].(fd := -1, state := Free));
  }

  // ----- bytes stay where they are --------------------------------------------------------------

  /** Every chunk that is still there keeps what was written in it. */
  ghost predicate Kept(h: Heap, h': Heap) {
    forall c :: c in h && c in h' ==> KeepsWritten(h, h', c)
  }

  lemma SameBytesKept(h: Heap, h': Heap)
    requires HeapOk(h) && SameBytes(h, h')
    ensures HeapOk(h') && Kept(h, h')
  {}

  /** A request whose chunks are still there is none the wiser. */
  lemma RequestKept(h: Heap, h': Heap, q: Request, t: Track, log: seq<Packet>, id: nat)
    requires ReqOk(h, q, t, log, id) && Kept(h, h')
    requires forall c :: c in IovRefs(q.iov) ==> c in h && c in h'
    ensures ReqOk(h', q, t, log, id) && IovBytes(h', q.iov) == IovBytes(h, q.iov)
  {
    hide KeepsWritten, Stdout, IovBytes;
    assert forall c :: c in IovRefs(q.iov) ==> KeepsWritten(h, h', c);
    IovKept(h, h', q.iov);
  }

  /** Chunks that requests hold are live. */
  lemma RequestChunksLive(s: Snapshot, r: nat)
    requires RefsMatch(s.heap, Holders(s.conns, s.reqs)) && r < |s.reqs|
    ensures forall c :: c in IovRefs(s.reqs[r].iov) ==> c in s.heap
  {
    hide IovRefs;
    forall c | c in IovRefs(s.reqs[r].iov) ensures c in s.heap {
      ReqHolds(s.reqs, r, c);
    }
  }

  /** All requests but `r` carry over to a heap that keeps the bytes. */
  lemma OthersKept(s: Snapshot, h': Heap, rs': seq<Request>, tr': seq<Track>, r: nat)
    requires Good(s) && Kept(s.heap, h') && RefsMatch(h', Holders(s.conns, rs'))
    requires r < |s.reqs| == |rs'| == |tr'| && rs' == s.reqs[r := rs'[r]] && tr' == s.track[r := tr'[r]]
    requires ReqOk(h', rs'[r], tr'[r], s.log, s.off + r)
    ensures ReqsOk(h', rs', tr', s.log, s.off)
  {
    hide KeepsWritten, Stdout, IovBytes, ReqOk, Kept, RefsMatch, Holders, IovRefs;
    var s' := s.(heap := h', reqs := rs', track := tr');
    forall k | 0 <= k < |rs'| ensures ReqOk(h', rs'[k], tr'[k], s.log, s.off + k) {
      if k != r {
        assert rs'[k] == s.reqs[k] && tr'[k] == s.track[k];
        RequestChunksLive(s, k);
        RequestChunksLive(s', k);
        RequestKept(s.heap, h', s.reqs[k], s.track[k], s.log, s.off + k);
      }
    }
  }

  lemma BeingSentKept(h: Heap, h': Heap, c: Conn, q: Request, t: Track)
    requires BeingSent(h, c, q, t) && Kept(h, h')
    requires forall c :: c in IovRefs(q.iov) ==> c in h && c in h'
    ensures BeingSent(h', c, q, t)
  {
    hide KeepsWritten, IovBytes;
    assert forall c :: c in IovRefs(q.iov) ==> KeepsWritten(h, h', c);
    IovKept(h, h', q.iov);
  }

  /** Connections go on sending requests other than `r`. */
  lemma SendingOthersKept(s: Snapshot, h': Heap, cs': seq<Conn>, rs': seq<Request>, tr': seq<Track>, r: nat)
    requires Good(s) && Kept(s.heap, h') && RefsMatch(h', Holders(cs', rs'))
    requires r < |s.reqs| == |rs'| == |tr'| && rs' == s.reqs[r := rs'[r]] && tr' == s.track[r := tr'[r]]
    requires |cs'| == |s.conns|
    requires forall i :: 0 <= i < |cs'| ==> cs'[i] == s.conns[i].(chunk := cs'[i].chunk)
    requires forall i :: 0 <= i < |cs'| && SendsTo(cs'[i], r) ==> BeingSent(h', cs'[i], rs'[r], tr'[r])
    ensures SendingOk(h', cs', rs', tr')
  {
    hide KeepsWritten, IovBytes, BeingSent, Kept, RefsMatch, Holders, IovRefs;
    var s' := s.(heap := h', conns := cs', reqs := rs', track := tr');
    forall i | 0 <= i < |cs'| && cs'[i].state == Sending ensures SendingNow(h', cs'[i], rs', tr') {
      assert SendingNow(s.heap, s.conns[i], s.reqs, s.track);
      var k := cs'[i].beginReq.value;
      if k == r {
        assert SendsTo(cs'[i], r);
      } else {
        RequestChunksLive(s, k);
        RequestChunksLive(s', k);
        BeingSentKept(s.heap, h', s.conns[i], s.reqs[k], s.track[k]);
        BeingSentChunk(h', s.conns[i], cs'[i], s.reqs[k], s.track[k]);
      }
    }
    forall i, j | 0 <= i < |cs'| && 0 <= j < |cs'| && SendSame(cs'[i], cs'[j]) ensures i == j {
      assert SendSame(s.conns[i], s.conns[j]);
    }
  }

  lemma BeingSentChunk(h: Heap, c: Conn, d: Conn, q: Request, t: Track)
    requires BeingSent(h, c, q, t) && d == c.(chunk := d.chunk)
    ensures BeingSent(h, d, q, t)
  {}

  /** Request `r` takes a new vector, on a heap with the counts to match. */
  lemma SetVector(s: Snapshot, h': Heap, r: nat, q: Request, t: Track)
    requires Good(s) && r < |s.reqs| && SameBytes(s.heap, h')
    requires RefsMatch(h', Holders(s.conns, s.reqs[r := q]))
    requires ReqOk(h', q, t, s.log, s.off + r)
    requires q.fd < 0 || q.fd == s.reqs[r].fd || FdSlots(s.reqs, q.fd) == {}
    requires forall i :: 0 <= i < |s.conns| && SendsTo(s.conns[i], r) ==> BeingSent(h', s.conns[i], q, t)
    ensures Good(s.(heap := h', reqs := s.reqs[r := q], track := s.track[r := t]))
  {
    SameBytesKept(s.heap, h');
    FdsStillUnique(s.reqs, r, q);
    hide ReqOk, BeingSent, Holders, RefsMatch, UniqueFds, Kept, HeapOk, SameBytes, ConnsOk;
    OthersKept(s, h', s.reqs[r := q], s.track[r := t], r);
    SendingOthersKept(s, h', s.conns, s.reqs[r := q], s.track[r := t], r);
    hide SendingOk, ReqsOk;
  }

  // ----- a record arrives -----------------------------------------------------------------------

  ghost predicate Concerns(p: Packet, id: nat) {
    ReadHeader(p).kind == STDOUT && ReadHeader(p).reqId == id
  }

  /** If it is STDOUT, it is for request `r` or for no request of the list. */
  ghost predicate ConcernsOnly(p: Packet, off: nat, n: nat, r: nat) {
    var h := ReadHeader(p);
    h.kind == STDOUT ==> h.reqId == off + r || h.reqId < off || h.reqId >= off + n
  }

  lemma NotConcerned(p: Packet, off: nat, n: nat, r: nat, k: nat)
    requires ConcernsOnly(p, off, n, r) && k < n && k != r
    ensures !Concerns(p, off + k)
  {}

  /** A record that is not STDOUT for this request leaves its answer alone. */
  lemma AnswerUnconcerned(h: Heap, iov: Iov, t: Track, log: seq<Packet>, id: nat, p: Packet)
    requires IovOk(h, iov) && HoldsAnswer(h, iov, t, log, id) && !Concerns(p, id)
    ensures HoldsAnswer(h, iov, t, log + [p], id)
  {
    hide IovBytes, Stdout, ReadHeader;
    var k := t.since.value;
    assert (log + [p])[k..] == log[k..] + [p];
    StdoutAppend(log[k..], p, id);
    assert Stdout(log[k..], id) + [] == Stdout(log[k..], id);
  }

  lemma RequestUnconcerned(h: Heap, q: Request, t: Track, log: seq<Packet>, id: nat, p: Packet)
    requires ReqOk(h, q, t, log, id) && !Concerns(p, id)
    ensures ReqOk(h, q, t, log + [p], id)
  {
    hide Concerns, HoldsAnswer, IovBytes;
    if Answering(q.state) && t.since.Some? {
      AnswerUnconcerned(h, q.iov, t, log, id, p);
    }
  }

  lemma StdoutFrom(log: seq<Packet>, p: Packet, k: nat, id: nat)
    requires k <= |log| && Concerns(p, id)
    ensures Stdout((log + [p])[k..], id) == Stdout(log[k..], id) + Body(p)
  {
    hide Stdout, ReadHeader;
    assert (log + [p])[k..] == log[k..] + [p];
    StdoutAppend(log[k..], p, id);
  }

  /** A body is appended to the answer as its slice is appended to the vector. */
  lemma AnswerGrows(h: Heap, iov: Iov, t: Track, log: seq<Packet>, id: nat, p: Packet, e: Entry)
    requires IovOk(h, iov) && HoldsAnswer(h, iov, t, log, id) && Concerns(p, id)
    requires EntryOk(h, e) && Content(h, e) == Body(p)
    ensures IovOk(h, iov + [e]) && HoldsAnswer(h, iov + [e], t, log + [p], id)
  {
    hide Stdout, ReadHeader, Content, EntryOk, IovBytes, Concerns, Body;
    IovAppend(h, iov, e);
    StdoutFrom(log, p, t.since.value, id);
    CutThenAppend(Stdout(log[t.since.value..], id), Body(p), t.gone);
  }

  lemma CutThenAppend(a: seq<byte>, b: seq<byte>, n: nat)
    requires n <= |a|
    ensures (a + b)[n..] == a[n..] + b
  {}

  /**
   * A record for request `r` (or for none, when it is not STDOUT): `r` changes, the heap's counts
   * with it, and every other request goes on as before.
   */
  lemma RecordHandled(s: Snapshot, p: Packet, h': Heap, r: nat, q: Request, t: Track)
    requires Good(s) && r < |s.reqs| && SameBytes(s.heap, h')
    requires ConcernsOnly(p, s.off, |s.reqs|, r)
    requires RefsMatch(h', Holders(s.conns, s.reqs[r := q]))
    requires ReqOk(h', q, t, s.log + [p], s.off + r)
    requires q.fd < 0 || q.fd == s.reqs[r].fd
    requires forall i :: 0 <= i < |s.conns| && SendsTo(s.conns[i], r) ==> BeingSent(h', s.conns[i], q, t)
    ensures Good(s.(heap := h', reqs := s.reqs[r := q], track := s.track[r := t], log := s.log + [p]))
  {
    SameBytesKept(s.heap, h');
    FdsStillUnique(s.reqs, r, q);
    hide ReqOk, BeingSent, Holders, RefsMatch, UniqueFds, Kept, HeapOk, SameBytes, ConnsOk, ConcernsOnly;
    RecordOthers(s, p, h', r, q, t);
    SendingOthersKept(s, h', s.conns, s.reqs[r := q], s.track[r := t], r);
    hide SendingOk, ReqsOk;
  }

  lemma RecordOthers(s: Snapshot, p: Packet, h': Heap, r: nat, q: Request, t: Track)
    requires Good(s) && r < |s.reqs| && Kept(s.heap, h') && ConcernsOnly(p, s.off, |s.reqs|, r)
    requires RefsMatch(h', Holders(s.conns, s.reqs[r := q]))
    requires ReqOk(h', q, t, s.log + [p], s.off + r)
    ensures ReqsOk(h', s.reqs[r := q], s.track[r := t], s.log + [p], s.off)
  {
    hide ReqOk, Holders, RefsMatch, UniqueFds, Kept, HeapOk, ConnsOk, Concerns, ConcernsOnly, IovRefs, SendingOk;
    var rs', tr' := s.reqs[r := q], s.track[r := t];
    var s' := s.(heap := h', reqs := rs', track := tr');
    forall k | 0 <= k < |rs'| ensures ReqOk(h', rs'[k], tr'[k], s.log + [p], s.off + k) {
      if k != r {
        RequestChunksLive(s, k);
        RequestChunksLive(s', k);
        RequestKept(s.heap, h', s.reqs[k], s.track[k], s.log, s.off + k);
        NotConcerned(p, s.off, |s.reqs|, r, k);
        RequestUnconcerned(h', s.reqs[k], s.track[k], s.log, s.off + k, p);
      }
    }
  }

  lemma RecordForNobody(s: Snapshot, p: Packet)
    requires Good(s) && ConcernsOnly(p, s.off, |s.reqs|, |s.reqs|)
    ensures Good(s.(log := s.log + [p]))
  {
    hide ReqOk, Concerns, ConcernsOnly;
    forall k | 0 <= k < |s.reqs| ensures ReqOk(s.heap, s.reqs[k], s.track[k], s.log + [p], s.off + k) {
      NotConcerned(p, s.off, |s.reqs|, |s.reqs|, k);
      RequestUnconcerned(s.heap, s.reqs[k], s.track[k], s.log, s.off + k, p);
    }
    hide SendingOk, RefsMatch, UniqueFds, ConnsOk;
  }

  // ----- chunks ---------------------------------------------------------------------------------

  lemma AllKept(s: Snapshot, h': Heap, cs': seq<Conn>)
    requires Good(s) && Kept(s.heap, h') && RefsMatch(h', Holders(cs', s.reqs)) && |cs'| == |s.conns|
    requires forall i :: 0 <= i < |cs'| ==> cs'[i] == s.conns[i].(chunk := cs'[i].chunk)
    ensures ReqsOk(h', s.reqs, s.track, s.log, s.off) && SendingOk(h', cs', s.reqs, s.track)
  {
    hide ReqOk, BeingSent, Holders, RefsMatch, UniqueFds, Kept, HeapOk, ConnsOk, IovRefs;
    var s' := s.(heap := h', conns := cs');
    forall k | 0 <= k < |s.reqs| ensures ReqOk(h', s.reqs[k], s.track[k], s.log, s.off + k) {
      RequestChunksLive(s, k);
      RequestChunksLive(s', k);
      RequestKept(s.heap, h', s.reqs[k], s.track[k], s.log, s.off + k);
    }
    forall i | 0 <= i < |cs'| && cs'[i].state == Sending ensures SendingNow(h', cs'[i], s.reqs, s.track) {
      assert SendingNow(s.heap, s.conns[i], s.reqs, s.track);
      var k := cs'[i].beginReq.value;
      RequestChunksLive(s, k);
      RequestChunksLive(s', k);
      BeingSentKept(s.heap, h', s.conns[i], s.reqs[k], s.track[k]);
      BeingSentChunk(h', s.conns[i], cs'[i], s.reqs[k], s.track[k]);
    }
    forall i, j | 0 <= i < |cs'| && 0 <= j < |cs'| && SendSame(cs'[i], cs'[j]) ensures i == j {
      assert SendSame(s.conns[i], s.conns[j]);
    }
  }

  /** A chunk's bytes or pointers change; what was written stays, and so do the counts. */
  lemma SetChunk(s: Snapshot, c: ChunkId, ch: Chunk)
    requires Good(s) && c in s.heap && ch.refs == s.heap[c].refs
    requires s.heap[c].write <= ch.write && ch.read <= ch.write <= |ch.data|
    requires ch.data[..s.heap[c].write] == s.heap[c].data[..s.heap[c].write]
    ensures Good(s.(heap := s.heap[c := ch]))
  {
    var h' := s.heap[c := ch];
    assert HeapOk(h') && Kept(s.heap, h');
    assert RefsMatch(h', Holders(s.conns, s.reqs)) by { hide Holders; }
    hide Kept, HeapOk, RefsMatch, Holders, ConnsOk, UniqueFds;
    AllKept(s, h', s.conns);
    hide SendingOk, ReqsOk;
  }

  /** Connection `i` moves to a new chunk and lets its old one go. */
  lemma MoveToChunk(s: Snapshot, i: nat, c: ChunkId, ch: Chunk, h': Heap)
    requires Good(s) && i < |s.conns| && c !in s.heap
    requires ch.refs == 1 && ch.read <= ch.write <= |ch.data|
    requires s.conns[i].chunk.Some? ==> s.conns[i].chunk.value in s.heap
    requires h' == if s.conns[i].chunk.Some? then Release(s.heap[c := ch], s.conns[i].chunk.value)
                   else s.heap[c := ch]
    ensures Good(s.(heap := h', conns := s.conns[i := s.conns[i].(chunk := Some(c))])) && c in h' && h'[c] == ch
  {
    hide RefsMatch, Holders, ConnsOk, UniqueFds, SendingOk, ReqsOk, Release, Kept, HeapOk;
    var cs' := s.conns[i := s.conns[i].(chunk := Some(c))];
    MoveRefs(s, i, c, ch, h');
    MoveHeap(s.heap, c, ch, s.conns[i].chunk, h');
    MoveConn(s.conns, i, c);
    AllKept(s, h', cs');
  }

  lemma MoveConn(cs: seq<Conn>, i: nat, c: ChunkId)
    requires ConnsOk(cs) && i < |cs|
    ensures ConnsOk(cs[i := cs[i].(chunk := Some(c))])
  {}

  lemma MoveHeap(h: Heap, c: ChunkId, ch: Chunk, prev: Option<ChunkId>, h': Heap)
    requires HeapOk(h) && c !in h && ch.read <= ch.write <= |ch.data|
    requires prev.Some? ==> prev.value in h
    requires h' == if prev.Some? then Release(h[c := ch], prev.value) else h[c := ch]
    ensures HeapOk(h') && Kept(h, h') && c in h' && h'[c] == ch
  {}

  lemma MoveRefs(s: Snapshot, i: nat, c: ChunkId, ch: Chunk, h': Heap)
    requires RefsMatch(s.heap, Holders(s.conns, s.reqs)) && i < |s.conns| && c !in s.heap && ch.refs == 1
    requires s.conns[i].chunk.Some? ==> s.conns[i].chunk.value in s.heap
    requires h' == if s.conns[i].chunk.Some? then Release(s.heap[c := ch], s.conns[i].chunk.value)
                   else s.heap[c := ch]
    ensures RefsMatch(h', Holders(s.conns[i := s.conns[i].(chunk := Some(c))], s.reqs))
  {
    var held, d := Holders(s.conns, s.reqs), s.conns[i].(chunk := Some(c));
    NewMatches(s.heap, held, c, ch);
    ConnRefsUpdate(s.conns, i, d);
    var now := Holders(s.conns[i := d], s.reqs);
    RegroupRight(ReqRefs(s.reqs), ConnRefs(s.conns), ConnRefs(s.conns[i := d]), RefOf(s.conns[i]), RefOf(d));
    assert now + RefOf(s.conns[i]) == held + multiset{c};
    hide RefsMatch, ConnRefs, ReqRefs, Release;
    if s.conns[i].chunk.Some? {
      var b := s.conns[i].chunk.value;
      ConnHolds(s.conns, i);
      assert b in held;
      ReleaseMatches(s.heap[c := ch], held + multiset{c}, b);
      assert held + multiset{c} - multiset{b} == now;
    } else {
      assert held + multiset{c} == now;
    }
  }

  lemma ConnChunkLive(s: Snapshot, i: nat)
    requires Good(s) && i < |s.conns| && s.conns[i].chunk.Some?
    ensures s.conns[i].chunk.value in s.heap
  {
    ConnHolds(s.conns, i);
    hide ReqsOk, SendingOk, UniqueFds, ConnsOk;
  }
}
