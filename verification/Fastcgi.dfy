/** The event handlers of plugins/fastcgi/fastcgi.c on one worker thread's context. */
module Fastcgi {
  import opened Bytes
  import opened Protocol
  import opened Records
  import opened Chunks
  import opened Requests
  import opened World
  import opened Ring

  // ----- what the small changes of a request keep -----------------------------------------------

  lemma FailedOk(h: Heap, q: Request, t: Track, log: seq<Packet>, id: nat)
    requires IovOk(h, q.iov) && q.fd >= -1 && q.state == Failed && t.gone == 0 && SleepOk(q)
    ensures ReqOk(h, q, t, log, id)
  {}

  lemma ResetOk(h: Heap, q: Request, log: seq<Packet>, id: nat)
    ensures ReqOk(h, Reset(q), NO_TRACK, log, id)
  {}

  lemma NoServerOk(h: Heap, q: Request, t: Track, log: seq<Packet>, id: nat)
    requires ReqOk(h, q, t, log, id)
    ensures ReqOk(h, q.(fcgiFd := -1), t, log, id)
  {
    hide HoldsAnswer, IovBytes;
  }

  lemma EndedOk(h: Heap, q: Request, t: Track, log: seq<Packet>, id: nat)
    requires ReqOk(h, q, t, log, id) && (q.state == Sent || q.state == StreamClosed) && t.since.Some?
    ensures ReqOk(h, q.(state := Ended, sleeping := false), t, log, id)
  {
    hide HoldsAnswer, IovBytes;
  }

  lemma ReqParts(h: Heap, q: Request, t: Track, log: seq<Packet>, id: nat)
    requires ReqOk(h, q, t, log, id)
    ensures IovOk(h, q.iov) && q.fd >= -1 && SleepOk(q)
  {}

  lemma GoodReq(s: Snapshot, r: nat)
    requires Good(s) && r < |s.reqs|
    ensures |s.track| == |s.reqs| && ReqOk(s.heap, s.reqs[r], s.track[r], s.log, s.off + r)
  {
    hide ReqOk;
  }

  /** An empty STDOUT record closes the stream and adds nothing. */
  lemma StreamClosedOk(h: Heap, q: Request, t: Track, log: seq<Packet>, id: nat, p: Packet)
    requires ReqOk(h, q, t, log, id) && q.state == Sent && t.since.Some?
    requires Body(p) == []
    ensures ReqOk(h, q.(state := StreamClosed), t, log + [p], id)
  {
    if Concerns(p, id) {
      StdoutFrom(log, p, t.since.value, id);
    } else {
      AnswerUnconcerned(h, q.iov, t, log, id, p);
    }
    hide Stdout, IovBytes, Concerns;
    if Concerns(p, id) {
      var a := Stdout(log[t.since.value..], id);
      assert a + [] == a;
    }
  }

  /** A slice of the packet's body joins the vector. */
  lemma SliceOk(h: Heap, q: Request, t: Track, log: seq<Packet>, id: nat, p: Packet, e: Entry, cap: nat)
    requires ReqOk(h, q, t, log, id) && q.state == Sent && t.since.Some? && Concerns(p, id)
    requires EntryOk(h, e) && Content(h, e) == Body(p)
    ensures ReqOk(h, q.(iov := q.iov + [e], cap := cap), t, log + [p], id)
  {
    hide Concerns, EntryOk, Content, Body;
    AnswerGrows(h, q.iov, t, log, id, p, e);
  }

  // ----- references of one vector ---------------------------------------------------------------

  lemma VectorGone(cs: seq<Conn>, rs: seq<Request>, r: nat, q: Request)
    requires r < |rs| && q.iov == []
    ensures Holders(cs, rs) == Holders(cs, rs[r := q]) + IovRefs(rs[r].iov)
  {
    ReqRefsUpdate(rs, r, q);
    hide IovRefs;
    var x := IovRefs(rs[r].iov);
    assert IovRefs([]) == multiset{} ==> ReqRefs(rs[r := q]) + x == ReqRefs(rs);
    NoRefs();
    assert ConnRefs(cs) + (ReqRefs(rs[r := q]) + x) == Holders(cs, rs[r := q]) + x;
  }

  lemma NoRefs()
    ensures IovRefs([]) == multiset{}
  {}

  lemma VectorGrows(cs: seq<Conn>, rs: seq<Request>, r: nat, q: Request, e: Entry)
    requires r < |rs| && q.iov == rs[r].iov + [e] && e.ref.InChunk?
    ensures Holders(cs, rs[r := q]) == Holders(cs, rs) + multiset{e.ref.chunk}
  {
    ReqRefsUpdate(rs, r, q);
    IovRefsAppend(rs[r].iov, e);
    hide IovRefs;
    var x, y := IovRefs(rs[r].iov), ReqRefs(rs[r := q]);
    assert y + x == ReqRefs(rs) + (x + multiset{e.ref.chunk});
    assert y + x == (ReqRefs(rs) + multiset{e.ref.chunk}) + x;
    Cancel(y, ReqRefs(rs) + multiset{e.ref.chunk}, x);
    assert ConnRefs(cs) + (ReqRefs(rs) + multiset{e.ref.chunk}) == Holders(cs, rs) + multiset{e.ref.chunk};
  }

  lemma {:induction false} IovRefsAppend(iov: Iov, e: Entry)
    ensures IovRefs(iov + [e]) == IovRefs(iov) + RefsOf(e)
  {
    if iov == [] {
      assert iov + [e] == [e] && [e][1..] == [];
      assert IovRefs([]) == multiset{};
    } else {
      assert (iov + [e])[1..] == iov[1..] + [e];
      IovRefsAppend(iov[1..], e);
    }
  }

  // ----- the context ----------------------------------------------------------------------------

  /** The error path of fcgi_handle_pkg: the request fails, and its client is woken. */
  function Failing(q: Request): Request { q.(state := Failed, sleeping := false) }

  /** The size of the vector once one more entry has been asked for. */
  function NextCap(q: Request): nat { if |q.iov| < q.cap then q.cap else q.cap + 2 }

  /** There is an entry left, or two more can be had. */
  predicate HasEntry(q: Request) {
    |q.iov| < q.cap || (NextCap(q) <= UIO_MAXIOV && |q.iov| < NextCap(q))
  }

  /** What a STDOUT record with body slice `e` does to its request, and whether it is accepted. */
  function OnStdout(q: Request, e: Entry): (Request, bool) {
    if q.state == Failed then (q, true)
    else if q.state != Sent then (Failing(q), false)
    else if e.len == 0 then (q.(state := StreamClosed), true)
    else if HasEntry(q) then (q.(iov := q.iov + [e], cap := NextCap(q)), true)
    else (Failing(q), false)
  }

  /** What an END_REQUEST record does; `ready` says that its connection may become ready. */
  function OnEnd(q: Request, ready: bool): (Request, bool) {
    var q := q.(fcgiFd := -1);
    if !ready then (Failing(q), false)
    else if q.fd == -1 then (Reset(q), true)
    else if q.state == Failed then (q, true)
    else if q.state == Sent || q.state == StreamClosed then (q.(state := Ended, sleeping := false), true)
    else (Failing(q), false)
  }

  /** What a record does to the request it is for. */
  function OnRecord(q: Request, kind: byte, e: Entry, ready: bool): (Request, bool) {
    if kind == STDOUT then OnStdout(q, e)
    else if kind == END_REQUEST then OnEnd(q, ready)
    else if kind == 0 then (Failing(q), false)
    else (q, true)
  }

  /** The body of a packet that stands at `at` in chunk `c`. */
  function Slice(p: Packet, c: ChunkId, at: nat): Entry { Entry(InChunk(c), at + HEADER_LEN, |Body(p)|) }

  class Context {
    var heap: Heap
    var nextId: ChunkId
    var conns: seq<Conn>
    const rl: RequestList
    ghost var log: seq<Packet>     // every record handed to the handler
    ghost var track: seq<Track>

    ghost function Now(): Snapshot
      reads this, rl
    {
      Snapshot(heap, conns, rl.rs, track, log, rl.idOffset)
    }

    /** What every handler keeps. */
    ghost predicate Inv()
      reads this, rl
    {
      rl.Valid() && Good(Now()) && FreshAbove(heap, nextId)
    }

    /** What holds after a record was refused: all is in order once connection `i` is let go of. */
    ghost predicate InvFreed(i: nat)
      reads this, rl
    {
      i < |conns| && rl.Valid() && Good(FreedAt(Now(), i)) && FreshAbove(heap, nextId)
    }

    /** fcgi_context_init, on the connection slots of the thread. */
    constructor (slots: seq<Conn>, clockCount: nat, offset: nat, size: nat)
      requires IsPowerOf2(size) && clockCount > 0
      requires forall i :: 0 <= i < |slots| ==> slots[i].state == Free && slots[i].fd == -1 && slots[i].chunk.None?
      ensures Inv() && fresh(rl) && conns == slots && log == [] && rl.idOffset == offset && |rl.rs| == size
      ensures |rl.hands| == clockCount && forall k :: 0 <= k < clockCount ==> rl.hands[k] == 0
      ensures forall k :: 0 <= k < size ==> rl.rs[k] == NEW_REQUEST
    {
      heap, nextId, conns := map[], 0, slots;
      rl := new RequestList(clockCount, offset, size);
      log, track := [], seq(size, _ => NO_TRACK);
      new;
      hide IsPowerOf2;
      Beginning(Now());
    }

    // ----- requests -----------------------------------------------------------------------------

    /** Store request `r` with its bookkeeping. */
    method Store(r: nat, q: Request, ghost t: Track)
      requires rl.Valid() && r < |rl.rs| == |track|
      modifies this`track, rl`rs
      ensures rl.Valid() && rl.rs == old(rl.rs)[r := q] && track == old(track)[r := t]
    {
      hide IsPowerOf2;
      rl.rs := rl.rs[r := q];
      track := track[r := t];
    }

    /** request_recycle: the vector's references are given up and the slot is clean again. */
    method Recycle(r: nat)
      requires Inv() && r < |rl.rs| && (forall i :: 0 <= i < |conns| ==> !SendsTo(conns[i], r))
      modifies this`heap, this`track, rl`rs
      ensures Inv() && SameBytes(old(heap), heap)
      ensures rl.rs == old(rl.rs)[r := Reset(old(rl.rs)[r])] && track == old(track)[r := NO_TRACK]
    {
      hide Good, IsPowerOf2, RefsMatch, Holders, SameBytes, SendsTo, FreshAbove, ReqOk;
      ghost var s := Now();
      var q := Reset(rl.rs[r]);
      VectorGone(conns, rl.rs, r, q);
      GoodRefs(s);
      GoodReq(s, r);
      heap := FreeRefs(heap, rl.rs[r].iov, Holders(conns, rl.rs[r := q]));
      ResetOk(heap, rl.rs[r], log, s.off + r);
      SetVector(s, heap, r, q, NO_TRACK);
      StillFresh(s.heap, heap, nextId);
      Store(r, q, NO_TRACK);
    }

    // ----- records ------------------------------------------------------------------------------

    /** A handled record changed request `r` only, and did not put it under way. */
    twostate predicate OnlyRequest(r: nat)
      reads this, rl
    {
      && |rl.rs| == |old(rl.rs)| && |track| == |old(track)| && r < |rl.rs| == |track|
      && rl.rs == old(rl.rs)[r := rl.rs[r]] && track == old(track)[r := track[r]]
      && (rl.rs[r].state == Sent ==> old(rl.rs)[r].state == Sent && track[r].since == old(track)[r].since)
      && (rl.rs[r].fd != -1 ==> old(rl.rs)[r].fd != -1)
    }

    /** The record did to request `r`, to no other and to its connection what it must. */
    twostate predicate Dispatched(p: Packet, r: nat, e: Entry, ok: bool, was: ConnState, now: ConnState)
      reads this, rl
    {
      var ready := MayTurn(was, Ready);
      && r < |old(rl.rs)| && (|rl.rs| == |old(rl.rs)|)
      && rl.rs == old(rl.rs)[r := rl.rs[r]]
      && (rl.rs[r], ok) == OnRecord(old(rl.rs)[r], ReadHeader(p).kind, e, ready)
      && now == if ReadHeader(p).kind == END_REQUEST && ready then Ready else was
    }

    /** The record is logged and request `r` becomes `q`, with the same vector. */
    method Note(p: Packet, r: nat, q: Request, ghost t: Track)
      requires Inv() && r < |rl.rs| == |track| && q.iov == rl.rs[r].iov && (q.fd < 0 || q.fd == rl.rs[r].fd)
      requires ConcernsOnly(p, rl.idOffset, |rl.rs|, r)
      requires ReqOk(heap, q, t, log + [p], rl.idOffset + r)
      requires q.state == Sent ==> rl.rs[r].state == Sent && t.since == track[r].since
      requires forall k :: 0 <= k < |conns| && SendsTo(conns[k], r) ==> BeingSent(heap, conns[k], q, t)
      modifies this`track, this`log, rl`rs
      ensures Inv() && log == old(log) + [p] && OnlyRequest(r) && rl.rs[r] == q && track[r] == t
    {
      hide Good, IsPowerOf2, RefsMatch, Holders, SameBytes, SendsTo, FreshAbove, ReqOk, ConcernsOnly, BeingSent;
      ghost var s := Now();
      GoodRefs(s);
      GoodReq(s, r);
      ReqParts(heap, rl.rs[r], track[r], log, s.off + r);
      ReqParts(heap, q, t, log + [p], s.off + r);
      SameVectorRefs(s, r, q);
      SameBytesSelf(heap);
      RecordHandled(s, p, heap, r, q, t);
      Store(r, q, t);
      log := log + [p];
    }

    /** The error path: the request fails, and its client is woken; whoever sends it goes on. */
    method FailOn(p: Packet, r: nat)
      requires Inv() && r < |rl.rs| && ConcernsOnly(p, rl.idOffset, |rl.rs|, r)
      modifies this`track, this`log, rl`rs
      ensures Inv() && log == old(log) + [p] && OnlyRequest(r) && rl.rs[r] == Failing(old(rl.rs[r]))
    {
      hide Good, IsPowerOf2, FreshAbove, ReqOk, ConcernsOnly, BeingSent, SendsTo;
      ghost var s := Now();
      GoodReq(s, r);
      Senders(s, r);
      ReqParts(heap, rl.rs[r], track[r], log, rl.idOffset + r);
      var q := Failing(rl.rs[r]);
      ghost var t := track[r].(gone := 0);
      FailedOk(heap, q, t, log + [p], rl.idOffset + r);
      forall k | 0 <= k < |conns| && SendsTo(conns[k], r) ensures BeingSent(heap, conns[k], q, t) {
        FailedStillSent(heap, conns[k], rl.rs[r], track[r]);
      }
      Note(p, r, q, t);
    }

    /** A record that changes nothing. */
    method Ignore(p: Packet, r: nat)
      requires Inv() && r < |rl.rs| && ConcernsOnly(p, rl.idOffset, |rl.rs|, r)
      requires ReadHeader(p).kind != STDOUT || rl.rs[r].state == Failed
      modifies this`track, this`log, rl`rs
      ensures Inv() && log == old(log) + [p] && OnlyRequest(r) && rl.rs == old(rl.rs)
    {
      hide Good, IsPowerOf2, FreshAbove, ConcernsOnly, ReadHeader, HoldsAnswer, IovBytes, BeingSent;
      ghost var id := rl.idOffset + r;
      GoodReq(Now(), r);
      Senders(Now(), r);
      if rl.rs[r].state == Failed {
        FailedOk(heap, rl.rs[r], track[r], log + [p], id);
      } else {
        RequestUnconcerned(heap, rl.rs[r], track[r], log, id, p);
      }
      hide ReqOk;
      Note(p, r, rl.rs[r], track[r]);
    }

    /**
     * request_add_pkg: the body's slice joins the vector, which grows by two entries when it is full,
     * and its chunk is retained. Refused, with nothing changed, for a request that is not under way
     * or whose vector cannot grow.
     */
    method AddPkg(p: Packet, r: nat, c: ChunkId, at: nat) returns (ok: bool)
      requires rl.Valid() && r < |rl.rs| && c in heap && RefsMatch(heap, Holders(conns, rl.rs))
      modifies this`heap, rl`rs
      ensures rl.Valid() && RefsMatch(heap, Holders(conns, rl.rs)) && SameBytes(old(heap), heap)
      ensures ok <==> old(rl.rs[r].state) == Sent && HasEntry(old(rl.rs[r]))
      ensures ok ==> rl.rs == old(rl.rs)[r := old(rl.rs[r]).(iov := old(rl.rs[r].iov) + [Slice(p, c, at)],
                                                             cap := NextCap(old(rl.rs[r])))]
      ensures !ok ==> rl.rs == old(rl.rs) && heap == old(heap)
    {
      hide IsPowerOf2, SameBytes, RefsMatch, Holders, Retain, ReadHeader, Body;
      SameBytesSelf(heap);
      var q := rl.rs[r];
      var cap := NextCap(q);
      if q.state != Sent || (|q.iov| >= q.cap && cap > UIO_MAXIOV) || |q.iov| >= cap {
        return false;
      }
      var e := Slice(p, c, at);
      var grown := q.(iov := q.iov + [e], cap := cap);
      VectorGrows(conns, rl.rs, r, grown, e);
      RetainMatches(heap, Holders(conns, rl.rs), c) by { LiveHeld(heap, Holders(conns, rl.rs), c); }
      ReleaseSameBytes(heap, c);
      heap := Retain(heap, c);
      rl.rs := rl.rs[r := grown];
      ok := true;
    }

    /** What the code does with a STDOUT record, whatever state the worker is in. */
    method StdoutRecord(p: Packet, r: nat, c: ChunkId, at: nat) returns (ok: bool)
      requires rl.Valid() && r < |rl.rs| == |track| && c in heap && RefsMatch(heap, Holders(conns, rl.rs))
      modifies this`heap, this`track, this`log, rl`rs
      ensures rl.Valid() && SameBytes(old(heap), heap)
      ensures Now() == StdoutResult(old(Now()), r, p, Slice(p, c, at), heap)
      ensures ok == OnStdout(old(rl.rs[r]), Slice(p, c, at)).1 && RefsMatch(heap, Holders(conns, rl.rs))
    {
      BodyEmpty(p);
      hide IsPowerOf2, SameBytes, RefsMatch, Holders, ReadHeader, Body;
      SameBytesSelf(heap);
      ghost var s := Now();
      ok := true;
      if rl.rs[r].state != Failed {
        if ReadHeader(p).bodyLen == 0 {
          ok := MayBecome(rl.rs[r].state, StreamClosed);
          SameVectorRefs(s, r, rl.rs[r].(state := StreamClosed));
          if ok {
            rl.rs := rl.rs[r := rl.rs[r].(state := StreamClosed)];
          }
        } else {
          ok := AddPkg(p, r, c, at);
        }
      }
      if !ok {
        SameVectorRefs(s, r, Failing(rl.rs[r]));
        rl.rs := rl.rs[r := Failing(rl.rs[r])];
      }
      track := track[r := if ok then track[r] else track[r].(gone := 0)];
      log := log + [p];
    }

    /** The FCGI_STDOUT case. */
    method HandleStdout(p: Packet, r: nat, c: ChunkId, at: nat) returns (ok: bool)
      requires Inv() && r < |rl.rs| && Concerns(p, rl.idOffset + r) && StdoutClean(Now(), r, |Body(p)|)
      requires c in heap && at + |p| <= heap[c].write <= |heap[c].data| && heap[c].data[at..at + |p|] == p
      modifies this`heap, this`track, this`log, rl`rs
      ensures Inv() && log == old(log) + [p] && OnlyRequest(r) && SameBytes(old(heap), heap)
      ensures (rl.rs[r], ok) == OnStdout(old(rl.rs[r]), Slice(p, c, at))
    {
      hide Good, IsPowerOf2, FreshAbove, SameBytes, RefsMatch, Holders, PacketSize, Concerns, Body, ReadHeader,
        StdoutClean;
      ghost var s := Now();
      GoodReq(s, r) by { hide ReqOk; }
      GoodRefs(s);
      ok := StdoutRecord(p, r, c, at);
      StdoutKeepsIff(s, r, p, c, at, heap);
      StillFresh(s.heap, heap, nextId);
    }

    /** The FCGI_END_REQUEST case: connection `i` is ready again and the request has ended. */
    method HandleEnd(i: nat, p: Packet, r: nat) returns (ok: bool)
      requires Inv() && i < |conns| && conns[i].state != Free && r < |rl.rs|
      requires EndClean(Now(), i, r) && ReadHeader(p).kind == END_REQUEST
      modifies this`heap, this`track, this`log, this`conns, rl`rs
      ensures InvFreed(i) && (ok ==> Inv())
      ensures log == old(log) + [p] && OnlyRequest(r) && SameBytes(old(heap), heap)
      ensures |conns| == |old(conns)| && conns == old(conns)[i := old(conns)[i].(state := conns[i].state)]
      ensures conns[i].state == if MayTurn(old(conns[i].state), Ready) then Ready else old(conns[i].state)
      ensures (rl.rs[r], ok) == OnEnd(old(rl.rs[r]), MayTurn(old(conns[i].state), Ready))
    {
      hide Good, IsPowerOf2, FreshAbove, SameBytes, PacketSize, ReadHeader, RefsMatch, Holders, EndClean, OnEnd,
        EndsGood;
      ghost var s := Now();
      GoodReq(s, r) by { hide ReqOk; }
      GoodRefs(s);
      ok := EndRecord(i, p, r);
      EndKeepsIff(s, i, r, p, heap);
      StillFresh(s.heap, heap, nextId);
      EndTells(s, i, r, p, heap);
    }

    /** What the code does with an END_REQUEST, whatever state the worker is in. */
    method EndRecord(i: nat, p: Packet, r: nat) returns (ok: bool)
      requires rl.Valid() && i < |conns| && r < |rl.rs| == |track| && RefsMatch(heap, Holders(conns, rl.rs))
      modifies this`heap, this`track, this`log, this`conns, rl`rs
      ensures rl.Valid() && SameBytes(old(heap), heap) && Now() == EndResult(old(Now()), i, r, p, heap)
      ensures ok == OnEnd(old(rl.rs[r]), MayTurn(old(conns[i].state), Ready)).1
      ensures RefsMatch(heap, Holders(conns, rl.rs)) && (rl.rs[r].state != Available ==> heap == old(heap))
    {
      hide IsPowerOf2, SameBytes, RefsMatch, Holders, OnEnd;
      ghost var s := Now();
      var q;
      ok, q := EndRequest(i, r);
      Store(r, q, EndResult(s, i, r, p, heap).track[r]);
      log := log + [p];
    }

    /** The connection and the references: what the request is to become. */
    method EndRequest(i: nat, r: nat) returns (ok: bool, q: Request)
      requires i < |conns| && r < |rl.rs| && RefsMatch(heap, Holders(conns, rl.rs))
      modifies this`heap, this`conns
      ensures (q, ok) == OnEnd(rl.rs[r], MayTurn(old(conns[i].state), Ready)) && SameBytes(old(heap), heap)
      ensures conns == if MayTurn(old(conns[i].state), Ready)
          then old(conns)[i := old(conns)[i].(state := Ready)] else old(conns)
      ensures RefsMatch(heap, Holders(conns, rl.rs[r := q])) && (q.state != Available ==> heap == old(heap))
    {
      hide SameBytes, RefsMatch, Holders;
      ghost var s := Now();
      SameBytesSelf(heap);
      q := rl.rs[r].(fcgiFd := -1);
      ok := MayTurn(conns[i].state, Ready);
      if !ok {
        q := Failing(q);
        EndSameRefs(s, i, r, q);
        return;
      }
      conns := conns[i := conns[i].(state := Ready)];
      if q.fd == -1 {
        q := Reset(q);
        EndVector(s, i, r, q);
        heap := FreeRefs(heap, rl.rs[r].iov, Holders(conns, rl.rs[r := q]));
        return;
      }
      if q.state != Failed {
        ok := q.state == Sent || q.state == StreamClosed;
        q := if ok then q.(state := Ended, sleeping := false) else Failing(q);
      }
      EndSameRefs(s, i, r, q);
    }

    /** request_set_state(REQ_FAILED), waking the client. */
    method Fail(r: nat)
      requires Inv() && r < |rl.rs| && (forall k :: 0 <= k < |conns| ==> !SendsTo(conns[k], r))
      modifies this`track, rl`rs
      ensures Inv() && |track| == |old(track)| == |rl.rs| == |old(rl.rs)|
      ensures rl.rs == old(rl.rs)[r := Failing(old(rl.rs)[r])]
      ensures track == old(track)[r := old(track)[r].(gone := 0)]
    {
      hide Good, IsPowerOf2, FreshAbove, ReqOk, SendsTo;
      ghost var s := Now();
      GoodReq(s, r);
      ReqParts(heap, rl.rs[r], track[r], log, s.off + r);
      var q := Failing(rl.rs[r]);
      ghost var t := track[r].(gone := 0);
      FailedOk(heap, q, t, log, s.off + r);
      SetRequest(s, r, q, t);
      Store(r, q, t);
    }

    /** fcgi_fd_set_state(FCGI_FD_READY) on an open connection. */
    method ReadyAgain(i: nat)
      requires Inv() && i < |conns| && MayTurn(conns[i].state, Ready) && conns[i].state != Free
      modifies this`conns
      ensures Inv() && conns == old(conns)[i := old(conns)[i].(state := Ready)]
    {
      hide Good, IsPowerOf2, FreshAbove;
      var c := conns[i].(state := Ready);
      GoodConn(Now(), i);
      SetConn(Now(), i, c);
      conns := conns[i := c];
    }

    /**
     * fcgi_handle_pkg, with the lookup of the request by its id. The hypothesis excludes STDOUT for
     * a request that has not been sent whole, and an END_REQUEST that EndKeepsIff shows to do harm.
     */
    method HandlePkg(i: nat, p: Packet, c: ChunkId, at: nat) returns (ok: bool)
      requires Inv() && i < |conns| && conns[i].state != Free
      requires c in heap && at + |p| <= heap[c].write <= |heap[c].data| && heap[c].data[at..at + |p|] == p
      requires Timely(Now(), i, p)
      modifies this`heap, this`track, this`log, this`conns, rl`rs, rl`entries, rl`hand
      ensures InvFreed(i) && (ok ==> Inv()) && log == old(log) + [p] && SameBytes(old(heap), heap)
      ensures |rl.rs| == |old(rl.rs)| && |conns| == |old(conns)|
      ensures conns == old(conns)[i := old(conns)[i].(state := conns[i].state)]
      ensures conns[i].state != Free && (conns[i].state == Sending <==> old(conns[i].state) == Sending)
      ensures conns[i].chunk == Some(c) ==> c in heap
      ensures c in heap ==> heap[c] == old(heap[c]).(refs := heap[c].refs)
      ensures StaysTimely(old(Now()), Now(), i)
      ensures var h := ReadHeader(p);
              if rl.idOffset <= h.reqId < rl.idOffset + |old(rl.rs)|
              then Dispatched(p, h.reqId - rl.idOffset, Slice(p, c, at), ok, old(conns[i].state), conns[i].state)
              else !ok && rl.rs == old(rl.rs) && conns == old(conns)
    {
      hide Good, IsPowerOf2, FreshAbove, PacketSize, SameBytes, Whole, EndClean, StaysTimely, ReadHeader, FreedAt;
      ghost var s := Now();
      var found := rl.Get(ReadHeader(p).reqId);
      SameBytesSelf(heap);
      if found.None? {
        Unknown(p);
        ok := false;
        TimelySame(s, Now(), i);
        GoodFreed(Now(), i);
      } else {
        ok := Dispatch(i, p, found.value, c, at);
      }
      if conns[i].chunk == Some(c) {
        FreedChunkLive(Now(), i);
      }
      if c in heap {
        SameChunk(s.heap, heap, c);
      }
    }

    /** The switch on the record type. */
    method Dispatch(i: nat, p: Packet, r: nat, c: ChunkId, at: nat) returns (ok: bool)
      requires Inv() && i < |conns| && conns[i].state != Free
      requires c in heap && at + |p| <= heap[c].write <= |heap[c].data| && heap[c].data[at..at + |p|] == p
      requires Timely(Now(), i, p) && r < |rl.rs| && ReadHeader(p).reqId == rl.idOffset + r
      modifies this`heap, this`track, this`log, this`conns, rl`rs
      ensures InvFreed(i) && (ok ==> Inv()) && log == old(log) + [p] && SameBytes(old(heap), heap)
      ensures |rl.rs| == |old(rl.rs)| && |conns| == |old(conns)|
      ensures conns == old(conns)[i := old(conns)[i].(state := conns[i].state)]
      ensures conns[i].state != Free && (conns[i].state == Sending <==> old(conns[i].state) == Sending)
      ensures StaysTimely(old(Now()), Now(), i)
      ensures Dispatched(p, r, Slice(p, c, at), ok, old(conns[i].state), conns[i].state)
    {
      hide Good, IsPowerOf2, FreshAbove, PacketSize, SameBytes, StaysTimely, ReadHeader, OnStdout, OnEnd, Body,
          EndClean,
        FreedAt;
      ghost var s := Now();
      SameBytesSelf(heap);
      var kind := ReadHeader(p).kind;
      if kind == STDOUT {
        ok := HandleStdout(p, r, c, at);
      } else if kind == END_REQUEST {
        ok := HandleEnd(i, p, r);
      } else {
        NotStdout(p, rl.idOffset, |rl.rs|, r);
        ok := kind != 0;
        if ok {
          Ignore(p, r);
        } else {
          FailOn(p, r);
        }
      }
      if kind != END_REQUEST {
        GoodFreed(Now(), i);
      }
      hide Whole;
      RecordGrows(s.reqs[r], kind, Slice(p, c, at), MayTurn(s.conns[i].state, Ready));
      TimelyAfter(s, Now(), i, r);
    }

    /** A record for no request: an error, and nothing but the log changes. */
    method Unknown(p: Packet)
      requires Inv() && !(rl.idOffset <= ReadHeader(p).reqId < rl.idOffset + |rl.rs|)
      modifies this`log
      ensures Inv() && log == old(log) + [p]
    {
      hide Good, IsPowerOf2, FreshAbove;
      assert ConcernsOnly(p, rl.idOffset, |rl.rs|, |rl.rs|);
      RecordForNobody(Now(), p);
      log := log + [p];
    }
  }

  /** A slice of a packet joins the vector of its request: the chunk has one more holder. */
  lemma SliceAdded(s: Snapshot, p: Packet, r: nat, c: ChunkId, at: nat, e: Entry, q: Request)
    requires Good(s) && Whole(s, r) && ConcernsOnly(p, s.off, |s.reqs|, r) && Concerns(p, s.off + r)
    requires s.reqs[r].state == Sent && q == s.reqs[r].(iov := s.reqs[r].iov + [e], cap := q.cap)
    requires c in s.heap && at + |p| <= s.heap[c].write && at + |p| <= |s.heap[c].data|
    requires s.heap[c].data[at..at + |p|] == p && e == Entry(InChunk(c), at + HEADER_LEN, |Body(p)|)
    ensures SameBytes(s.heap, Retain(s.heap, c))
    ensures Good(s.(heap := Retain(s.heap, c), reqs := s.reqs[r := q], track := s.track[r := s.track[r]],
                    log := s.log + [p]))
  {
    hide Good, ConcernsOnly, ReqOk, SameBytes, Concerns, Retain, RefsMatch, Holders, EntryOk, HeapOk, Content,
      PacketSize, ReadHeader, Body, SendsTo;
    GoodReq(s, r);
    NobodySends(s, r);
    GoodRefs(s);
    SlicePlace(s.heap, c, at, p, e);
    SliceOk(s.heap, s.reqs[r], s.track[r], s.log, s.off + r, p, e, q.cap);
    VectorGrows(s.conns, s.reqs, r, q, e);
    RetainMatches(s.heap, Holders(s.conns, s.reqs), c) by { LiveHeld(s.heap, Holders(s.conns, s.reqs), c); }
    ReleaseSameBytes(s.heap, c);
    ReqOnSameBytes(s, Retain(s.heap, c), r, q, s.track[r], s.log + [p]);
    ReqParts(s.heap, s.reqs[r], s.track[r], s.log, s.off + r);
    RecordHandled(s, p, Retain(s.heap, c), r, q, s.track[r]);
  }

  ghost predicate FreshAbove(h: Heap, n: ChunkId) { forall c :: c in h ==> c < n }

  lemma StillFresh(h: Heap, h': Heap, n: ChunkId)
    requires FreshAbove(h, n) && SameBytes(h, h')
    ensures FreshAbove(h', n)
  {}

  lemma GoodRefs(s: Snapshot)
    requires Good(s)
    ensures RefsMatch(s.heap, Holders(s.conns, s.reqs)) && HeapOk(s.heap)
  {
    hide RefsMatch, Holders;
  }

  lemma Beginning(s: Snapshot)
    requires s.heap == map[] && s.log == [] && |s.track| == |s.reqs|
    requires forall k :: 0 <= k < |s.reqs| ==> s.reqs[k] == NEW_REQUEST && s.track[k] == NO_TRACK
    requires forall i :: 0 <= i < |s.conns| ==>
        s.conns[i].state == Free && s.conns[i].fd == -1 && s.conns[i].chunk.None?
    ensures Good(s)
  {
    NoConnRefs(s.conns);
    NoReqRefs(s.reqs);
    forall k | 0 <= k < |s.reqs| ensures ReqOk(s.heap, s.reqs[k], s.track[k], s.log, s.off + k) {
      ResetOk(s.heap, NEW_REQUEST, s.log, s.off + k);
      assert s.reqs[k] == Reset(NEW_REQUEST);
    }
    hide ReqOk, ConnRefs, ReqRefs;
  }

  lemma {:induction false} NoConnRefs(cs: seq<Conn>)
    requires forall i :: 0 <= i < |cs| ==> cs[i].chunk.None?
    ensures ConnRefs(cs) == multiset{}
  {
    if cs != [] {
      NoConnRefs(cs[1..]);
    }
  }

  lemma {:induction false} NoReqRefs(rs: seq<Request>)
    requires forall k :: 0 <= k < |rs| ==> rs[k] == NEW_REQUEST
    ensures ReqRefs(rs) == multiset{}
  {
    if rs != [] {
      NoReqRefs(rs[1..]);
      NoRefs();
    }
  }

  lemma SameBytesSelf(h: Heap)
    ensures SameBytes(h, h)
  {}

  lemma LiveHeld(h: Heap, held: multiset<ChunkId>, c: ChunkId)
    requires RefsMatch(h, held) && c in h
    ensures c in held
  {}

  /** The slice of the body, in the chunk that holds the packet. */
  lemma SlicePlace(h: Heap, c: ChunkId, at: nat, p: Packet, e: Entry)
    requires c in h && HeapOk(h) && at + |p| <= h[c].write && h[c].data[at..at + |p|] == p
    requires e == Entry(InChunk(c), at + HEADER_LEN, |Body(p)|)
    ensures EntryOk(h, e) && Content(h, e) == Body(p)
  {
    hide ReadHeader;
    var n := ReadHeader(p).bodyLen;
    assert HEADER_LEN + n <= |p|;
    Within(h[c].data, at, p, HEADER_LEN, HEADER_LEN + n);
  }

  /** A request checked against the old heap stands on the one with the counts changed. */
  lemma ReqOnSameBytes(s: Snapshot, h': Heap, r: nat, q: Request, t: Track, log: seq<Packet>)
    requires HeapOk(s.heap) && ReqOk(s.heap, q, t, log, s.off + r) && SameBytes(s.heap, h')
    requires r < |s.reqs| && RefsMatch(h', Holders(s.conns, s.reqs[r := q]))
    ensures ReqOk(h', q, t, log, s.off + r)
  {
    SameBytesKept(s.heap, h');
    RequestChunksLive(s.(heap := h', reqs := s.reqs[r := q]), r);
    forall c | c in IovRefs(q.iov) ensures c in s.heap && c in h' {
      assert c in h';
    }
    hide Kept, ReqOk, SameBytes, RefsMatch, HeapOk, IovRefs, Holders;
    RequestKept(s.heap, h', q, t, log, s.off + r);
  }

  lemma ConcernedOne(p: Packet, off: nat, n: nat, r: nat)
    requires Concerns(p, off + r)
    ensures ConcernsOnly(p, off, n, r)
  {}

  lemma NotStdout(p: Packet, off: nat, n: nat, r: nat)
    requires ReadHeader(p).kind != STDOUT
    ensures ConcernsOnly(p, off, n, r) && !Concerns(p, off + r)
  {}

  lemma BodyEmpty(p: Packet)
    ensures Body(p) == [] <==> ReadHeader(p).bodyLen == 0
  {
    hide ReadHeader;
  }

  lemma GoodConn(s: Snapshot, i: nat)
    requires Good(s) && i < |s.conns|
    ensures s.conns[i].fd >= -1 && (s.conns[i].fd == -1 <==> s.conns[i].state == Free)
    ensures s.conns[i].state == Sending ==> SendingNow(s.heap, s.conns[i], s.reqs, s.track)
  {
    hide RefsMatch, Holders, ReqsOk, SendingNow;
  }

  /**
   * An END_REQUEST on connection `i` does no harm: nobody else is sending the request, and it is
   * not about to end without having been sent whole.
   */
  ghost predicate EndClean(s: Snapshot, i: nat, r: nat)
    requires i < |s.conns| && r < |s.reqs|
  {
    && (forall j :: 0 <= j < |s.conns| && j != i ==> !SendsTo(s.conns[j], r))
    && (MayTurn(s.conns[i].state, Ready) && s.reqs[r].fd != -1 ==> Whole(s, r))
  }

  /** A STDOUT or END_REQUEST record comes at a time when it does no harm; any other record always does. */
  ghost predicate Timely(s: Snapshot, i: nat, p: Packet)
    requires i < |s.conns|
  {
    var h := ReadHeader(p);
    s.off <= h.reqId < s.off + |s.reqs| ==>
      && (h.kind == STDOUT ==> StdoutClean(s, h.reqId - s.off, |Body(p)|))
      && (h.kind == END_REQUEST ==> EndClean(s, i, h.reqId - s.off))
  }

  ghost predicate GrowsAsBefore(q: Request, q': Request) {
    q'.state == Sent ==> q.state == Sent && (HasEntry(q') ==> HasEntry(q))
  }

  ghost predicate SendsAsBefore(c: Conn, d: Conn) {
    d.state == Sending ==> c.state == Sending && d.beginReq == c.beginReq
  }

  /** What was timely still is. */
  ghost predicate StaysTimely(s: Snapshot, s': Snapshot, i: nat) {
    && |s'.reqs| == |s.reqs| && s'.off == s.off && i < |s.conns| == |s'.conns|
    && (forall r :: 0 <= r < |s.reqs| && Whole(s, r) ==> Whole(s', r))
    && (forall r :: 0 <= r < |s.reqs| && s'.reqs[r].fd != -1 ==> s.reqs[r].fd != -1)
    && (forall r :: 0 <= r < |s.reqs| ==> GrowsAsBefore(s.reqs[r], s'.reqs[r]))
    && (forall j :: 0 <= j < |s.conns| ==> SendsAsBefore(s.conns[j], s'.conns[j]))
    && (MayTurn(s'.conns[i].state, Ready) ==> MayTurn(s.conns[i].state, Ready))
  }

  lemma TimelyCarries(s: Snapshot, s': Snapshot, i: nat, p: Packet)
    requires StaysTimely(s, s', i) && Timely(s, i, p)
    ensures Timely(s', i, p)
  {
    hide ReadHeader, PacketSize, HasEntry, Body;
    var h := ReadHeader(p);
    if s.off <= h.reqId < s.off + |s.reqs| && h.kind == STDOUT {
      StdoutCarries(s, s', i, h.reqId - s.off, |Body(p)|);
    }
    hide Whole;
    if s.off <= h.reqId < s.off + |s.reqs| && h.kind == END_REQUEST {
      var r := h.reqId - s.off;
      forall j | 0 <= j < |s'.conns| && j != i ensures !SendsTo(s'.conns[j], r) {
        assert SendsAsBefore(s.conns[j], s'.conns[j]) && !SendsTo(s.conns[j], r);
      }
    }
  }

  lemma StdoutCarries(s: Snapshot, s': Snapshot, i: nat, r: nat, len: nat)
    requires StaysTimely(s, s', i) && r < |s.reqs| && StdoutClean(s, r, len)
    ensures StdoutClean(s', r, len)
  {
    hide HasEntry;
    assert GrowsAsBefore(s.reqs[r], s'.reqs[r]);
    if !Whole(s, r) && forall j :: 0 <= j < |s.conns| ==> !SendsTo(s.conns[j], r) {
      forall j | 0 <= j < |s'.conns| ensures !SendsTo(s'.conns[j], r) {
        assert SendsAsBefore(s.conns[j], s'.conns[j]) && !SendsTo(s.conns[j], r);
      }
    }
  }

  lemma TimelySame(s: Snapshot, s': Snapshot, i: nat)
    requires s'.reqs == s.reqs && s'.track == s.track && s'.conns == s.conns && s'.off == s.off && i < |s.conns|
    ensures StaysTimely(s, s', i)
  {}

  lemma RecordGrows(q: Request, kind: byte, e: Entry, ready: bool)
    ensures GrowsAsBefore(q, OnRecord(q, kind, e, ready).0)
  {}

  lemma TimelyAfter(s: Snapshot, s': Snapshot, i: nat, r: nat)
    requires i < |s.conns| == |s'.conns| && s'.conns == s.conns[i := s.conns[i].(state := s'.conns[i].state)]
    requires s'.conns[i].state == s.conns[i].state || s'.conns[i].state == Ready
    requires r < |s.reqs| == |s'.reqs| == |s.track| == |s'.track| && s'.off == s.off
    requires s'.reqs == s.reqs[r := s'.reqs[r]] && s'.track == s.track[r := s'.track[r]]
    requires s'.reqs[r].state == Sent ==> s.reqs[r].state == Sent && s'.track[r].since == s.track[r].since
    requires s'.reqs[r].fd != -1 ==> s.reqs[r].fd != -1
    requires GrowsAsBefore(s.reqs[r], s'.reqs[r])
    ensures StaysTimely(s, s', i)
  {}

  // ----- the end of a request ---------------------------------------------------------------------

  lemma FailedStillSent(h: Heap, c: Conn, q: Request, t: Track)
    requires BeingSent(h, c, q, t)
    ensures BeingSent(h, c, Failing(q), t.(gone := 0))
  {}

  /** The context after an END_REQUEST for request `r` on connection `i`, on a heap with the counts to match. */
  ghost function EndResult(s: Snapshot, i: nat, r: nat, p: Packet, h': Heap): Snapshot
    requires i < |s.conns| && r < |s.reqs| == |s.track|
  {
    var ready := MayTurn(s.conns[i].state, Ready);
    var q := OnEnd(s.reqs[r], ready).0;
    var t := if q.state == Available then NO_TRACK else if q.state == Failed
        then s.track[r].(gone := 0) else s.track[r];
    s.(heap := h', conns := if ready then s.conns[i := s.conns[i].(state := Ready)] else s.conns,
       reqs := s.reqs[r := q], track := s.track[r := t], log := s.log + [p])
  }

  lemma EndVector(s: Snapshot, i: nat, r: nat, q: Request)
    requires i < |s.conns| && r < |s.reqs| && q.iov == [] && RefsMatch(s.heap, Holders(s.conns, s.reqs))
    ensures var cs := s.conns[i := s.conns[i].(state := Ready)];
            RefsMatch(s.heap, Holders(cs, s.reqs[r := q]) + IovRefs(s.reqs[r].iov))
  {
    hide RefsMatch, Holders;
    var c := s.conns[i].(state := Ready);
    SameHolders(s.conns, i, c, s.reqs);
    VectorGone(s.conns[i := c], s.reqs, r, q);
  }

  lemma SameChunk(h: Heap, h': Heap, c: ChunkId)
    requires SameBytes(h, h') && c in h'
    ensures c in h && h'[c] == h[c].(refs := h'[c].refs)
  {}

  lemma EndSameRefs(s: Snapshot, i: nat, r: nat, q: Request)
    requires i < |s.conns| && r < |s.reqs| && q.iov == s.reqs[r].iov && RefsMatch(s.heap, Holders(s.conns, s.reqs))
    ensures RefsMatch(s.heap, Holders(s.conns, s.reqs[r := q]))
    ensures RefsMatch(s.heap, Holders(s.conns[i := s.conns[i].(state := Ready)], s.reqs[r := q]))
  {
    hide RefsMatch, Holders;
    SameVectorRefs(s, r, q);
    SameHolders(s.conns, i, s.conns[i].(state := Ready), s.reqs[r := q]);
  }

  /** In order, once a refused record's connection has been let go of. */
  ghost predicate EndsGood(s: Snapshot, s': Snapshot, i: nat, r: nat)
    requires i < |s.conns| == |s'.conns| && r < |s.reqs|
  {
    if OnEnd(s.reqs[r], MayTurn(s.conns[i].state, Ready)).1 then Good(s') else Good(FreedAt(s', i))
  }

  /**
   * An END_REQUEST keeps the worker in order exactly when no other connection is still sending the
   * request and it does not end a request that was not sent whole. On the connection that is
   * itself sending the request, the request fails and the connection is let go of.
   */
  lemma EndKeepsIff(s: Snapshot, i: nat, r: nat, p: Packet, h': Heap)
    requires Good(s) && i < |s.conns| && s.conns[i].state != Free && r < |s.reqs| == |s.track|
    requires ReadHeader(p).kind == END_REQUEST && SameBytes(s.heap, h')
    requires RefsMatch(h', Holders(EndResult(s, i, r, p, h').conns, EndResult(s, i, r, p, h').reqs))
    ensures EndsGood(s, EndResult(s, i, r, p, h'), i, r) <==> EndClean(s, i, r)
  {
    hide Good, ReadHeader, RefsMatch, Holders, SameBytes, EndClean, EndsGood, EndResult;
    if EndClean(s, i, r) {
      EndKeeps(s, i, r, p, h');
    } else {
      EndBreaks(s, i, r, p, h');
    }
  }

  /** The context just before the request changes: the connection is ready, or let go of. */
  ghost function EndBase(s: Snapshot, i: nat): Snapshot
    requires i < |s.conns|
  {
    if MayTurn(s.conns[i].state, Ready) then s.(conns := s.conns[i := s.conns[i].(state := Ready)]) else FreedAt(s, i)
  }

  lemma EndBaseGood(s: Snapshot, i: nat, r: nat)
    requires Good(s) && i < |s.conns| && s.conns[i].state != Free && r < |s.reqs| && EndClean(s, i, r)
    ensures Good(EndBase(s, i))
    ensures forall j :: 0 <= j < |s.conns| ==> !SendsTo(EndBase(s, i).conns[j], r)
  {
    hide Good, Whole;
    GoodConn(s, i);
    if MayTurn(s.conns[i].state, Ready) {
      SetConn(s, i, s.conns[i].(state := Ready));
    } else {
      GoodFreed(s, i);
    }
  }

  lemma EndReqOk(s: Snapshot, i: nat, r: nat, p: Packet)
    requires Good(s) && i < |s.conns| && r < |s.reqs| == |s.track| && EndClean(s, i, r)
    requires ReadHeader(p).kind == END_REQUEST
    ensures var s' := EndResult(s, i, r, p, s.heap);
            ReqOk(s.heap, s'.reqs[r], s'.track[r], s'.log, s.off + r)
                && (s'.reqs[r].fd < 0 || s'.reqs[r].fd == s.reqs[r].fd)
  {
    var q, t, id, log := s.reqs[r].(fcgiFd := -1), s.track[r], s.off + r, s.log + [p];
    GoodReq(s, r);
    NotStdout(p, s.off, |s.reqs|, r);
    EndTwice(s.reqs[r], MayTurn(s.conns[i].state, Ready));
    hide Good, ReadHeader, ReqOk, Concerns, ConcernsOnly, OnEnd, SendsTo;
    RequestUnconcerned(s.heap, s.reqs[r], t, s.log, id, p);
    NoServerOk(s.heap, s.reqs[r], t, log, id);
    EndCases(s.heap, q, t, log, id, MayTurn(s.conns[i].state, Ready));
  }

  lemma EndTwice(q: Request, ready: bool)
    ensures OnEnd(q.(fcgiFd := -1), ready) == OnEnd(q, ready)
  {}

  /** Each of the ways in which a request may come out of an END_REQUEST. */
  lemma EndCases(h: Heap, q: Request, t: Track, log: seq<Packet>, id: nat, ready: bool)
    requires ReqOk(h, q, t, log, id) && q.fcgiFd == -1 && (ready && q.fd != -1 && q.state == Sent ==> t.since.Some?)
    ensures var q' := OnEnd(q, ready).0;
            var t' := if q'.state == Available then NO_TRACK else if q'.state == Failed then t.(gone := 0) else t;
            ReqOk(h, q', t', log, id) && (q'.fd < 0 || q'.fd == q.fd)
  {
    ReqParts(h, q, t, log, id);
    if q.state == StreamClosed {
      ClosedSince(h, q, t, log, id);
    }
    hide ReqOk;
    FailedOk(h, Failing(q), t.(gone := 0), log, id);
    ResetOk(h, q, log, id);
    if q.state == Failed {
      FailedOk(h, q, t.(gone := 0), log, id);
    } else if (q.state == Sent || q.state == StreamClosed) && t.since.Some? {
      EndedOk(h, q, t, log, id);
    }
  }

  lemma ClosedSince(h: Heap, q: Request, t: Track, log: seq<Packet>, id: nat)
    requires ReqOk(h, q, t, log, id) && q.state == StreamClosed
    ensures t.since.Some?
  {
    hide HoldsAnswer, IovBytes;
  }

  lemma EndKeeps(s: Snapshot, i: nat, r: nat, p: Packet, h': Heap)
    requires Good(s) && i < |s.conns| && s.conns[i].state != Free && r < |s.reqs| == |s.track|
    requires ReadHeader(p).kind == END_REQUEST && SameBytes(s.heap, h') && EndClean(s, i, r)
    requires RefsMatch(h', Holders(EndResult(s, i, r, p, h').conns, EndResult(s, i, r, p, h').reqs))
    ensures EndsGood(s, EndResult(s, i, r, p, h'), i, r)
  {
    hide Good, ReadHeader, RefsMatch, Holders, SameBytes, EndClean, ReqOk, ConcernsOnly, Concerns, OnEnd, SendsTo,
        BeingSent;
    var b, s' := EndBase(s, i), EndResult(s, i, r, p, h');
    var q, t := s'.reqs[r], s'.track[r];
    EndBaseGood(s, i, r);
    EndReqOk(s, i, r, p);
    GoodRefs(s);
    NotStdout(p, s.off, |s.reqs|, r);
    if !MayTurn(s.conns[i].state, Ready) {
      SameHolders(s.conns, i, b.conns[i], s'.reqs);
    }
    ReqOnSameBytes(b, h', r, q, t, s'.log);
    RecordHandled(b, p, h', r, q, t);
    if MayTurn(s.conns[i].state, Ready) {
      assert s' == b.(heap := h', reqs := b.reqs[r := q], track := b.track[r := t], log := b.log + [p]);
      GoodFreed(s', i);
    } else {
      EndRefused(s.reqs[r]);
      assert FreedAt(s', i) == b.(heap := h', reqs := b.reqs[r := q], track := b.track[r := t], log := b.log + [p]);
    }
  }

  lemma EndRefused(q: Request)
    ensures !OnEnd(q, false).1
  {}

  lemma EndBreaks(s: Snapshot, i: nat, r: nat, p: Packet, h': Heap)
    requires Good(s) && i < |s.conns| && s.conns[i].state != Free && r < |s.reqs| == |s.track| && !EndClean(s, i, r)
    ensures !EndsGood(s, EndResult(s, i, r, p, h'), i, r)
  {
    var s' := EndResult(s, i, r, p, h');
    if j :| 0 <= j < |s.conns| && j != i && SendsTo(s.conns[j], r) {
      GoodConn(s, j);
      assert s'.conns[j] == s.conns[j] && s'.reqs[r].fcgiFd == -1;
      if Good(s') { LostSender(s', j, r); }
      if Good(FreedAt(s', i)) { LostSender(FreedAt(s', i), j, r); }
    } else {
      assert s'.reqs[r].state == Ended && s'.track[r].since.None?;
      if Good(s') { GoodReq(s', r); }
    }
  }

  lemma LostSender(s: Snapshot, j: nat, r: nat)
    requires Good(s) && j < |s.conns| && r < |s.reqs| && SendsTo(s.conns[j], r) && s.conns[j].fd != -1
    ensures s.reqs[r].fcgiFd != -1
  {
    hide Good;
    Senders(s, r);
  }

  /**
   * What the client is given when another connection's END_REQUEST comes before the request has
   * gone whole: the request is ended, and its vector holds the rest of the request itself.
   */
  lemma EndedTooSoon(s: Snapshot, i: nat, j: nat, r: nat, p: Packet, h': Heap)
    requires Good(s) && i < |s.conns| && j < |s.conns| && r < |s.reqs| == |s.track| && SendsTo(s.conns[j], r)
    requires MayTurn(s.conns[i].state, Ready) && s.reqs[r].fd != -1 && s.reqs[r].state == Sent
    ensures var q := EndResult(s, i, r, p, h').reqs[r];
            && q.state == Ended && IovOk(s.heap, q.iov)
            && s.track[r].out + IovBytes(s.heap, q.iov) == s.track[r].whole
  {
    Senders(s, r);
    hide Good, IovBytes, IovOk;
  }

  /** What the callers of HandleEnd need to know of its result. */
  lemma EndTells(s: Snapshot, i: nat, r: nat, p: Packet, h': Heap)
    requires i < |s.conns| && r < |s.reqs| == |s.track|
    requires EndsGood(s, EndResult(s, i, r, p, h'), i, r)
    ensures var s', o := EndResult(s, i, r, p, h'), OnEnd(s.reqs[r], MayTurn(s.conns[i].state, Ready));
            && Good(FreedAt(s', i)) && (o.1 ==> Good(s')) && o.0.state != Sent
            && (o.0.fd != -1 ==> s.reqs[r].fd != -1)
  {
    hide Good;
    if OnEnd(s.reqs[r], MayTurn(s.conns[i].state, Ready)).1 {
      GoodFreed(EndResult(s, i, r, p, h'), i);
    }
  }

  lemma FreedChunkLive(s: Snapshot, i: nat)
    requires i < |s.conns| && Good(FreedAt(s, i)) && s.conns[i].chunk.Some?
    ensures s.conns[i].chunk.value in s.heap
  {
    hide Good;
    ConnChunkLive(FreedAt(s, i), i);
  }

  // ----- STDOUT before the request has gone whole ---------------------------------------------------

  /**
   * A STDOUT record does no harm: its request has been sent whole or is not under way; or it has a
   * body, and nobody is sending the request or there is no entry left to hold the body.
   */
  ghost predicate StdoutClean(s: Snapshot, r: nat, len: nat)
    requires r < |s.reqs|
  {
    || s.reqs[r].state != Sent || Whole(s, r)
    || (len > 0 && ((forall i :: 0 <= i < |s.conns| ==> !SendsTo(s.conns[i], r)) || !HasEntry(s.reqs[r])))
  }

  /** The context after a STDOUT record with body slice `e`, on a heap with the counts to match. */
  ghost function StdoutResult(s: Snapshot, r: nat, p: Packet, e: Entry, h': Heap): Snapshot
    requires r < |s.reqs| == |s.track|
  {
    var (q, ok) := OnStdout(s.reqs[r], e);
    s.(heap := h', reqs := s.reqs[r := q],
       track := s.track[r := if ok then s.track[r] else s.track[r].(gone := 0)], log := s.log + [p])
  }

  /** A STDOUT record keeps the worker in order exactly when it is harmless in that sense. */
  lemma StdoutKeepsIff(s: Snapshot, r: nat, p: Packet, c: ChunkId, at: nat, h': Heap)
    requires Good(s) && r < |s.reqs| == |s.track| && Concerns(p, s.off + r)
    requires c in s.heap && at + |p| <= s.heap[c].write && at + |p| <= |s.heap[c].data|
    requires s.heap[c].data[at..at + |p|] == p && SameBytes(s.heap, h')
    requires RefsMatch(h', Holders(s.conns, StdoutResult(s, r, p, Slice(p, c, at), h').reqs))
    ensures Good(StdoutResult(s, r, p, Slice(p, c, at), h')) <==> StdoutClean(s, r, |Body(p)|)
  {
    var e := Slice(p, c, at);
    hide Good, RefsMatch, Holders, SameBytes, Concerns, ReadHeader, PacketSize, Body, StdoutClean, StdoutResult;
    if !StdoutClean(s, r, e.len) {
      StdoutBreaks(s, r, p, e, h');
    } else if OnStdout(s.reqs[r], e).0.iov == s.reqs[r].iov {
      StdoutNoSlice(s, r, p, e, h');
    } else {
      StdoutSlice(s, r, p, c, at, h');
    }
  }

  lemma StdoutBreaks(s: Snapshot, r: nat, p: Packet, e: Entry, h': Heap)
    requires Good(s) && r < |s.reqs| == |s.track| && !StdoutClean(s, r, e.len)
    ensures !Good(StdoutResult(s, r, p, e, h'))
  {
    var s' := StdoutResult(s, r, p, e, h');
    if Good(s') {
      GoodReq(s', r);
      Senders(s, r);
      Senders(s', r);
      if e.len > 0 {
        hide Good;
        LengthGrows(s.reqs[r].iov, e);
      }
    }
  }

  lemma {:induction false} LengthGrows(iov: Iov, e: Entry)
    ensures IovLength(iov + [e]) == IovLength(iov) + e.len
  {
    if iov == [] {
      assert iov + [e] == [e] && [e][1..] == [];
      assert IovLength([]) == 0;
    } else {
      assert (iov + [e])[1..] == iov[1..] + [e];
      LengthGrows(iov[1..], e);
    }
  }

  /** The counts and the bytes make the heap. */
  lemma HeapIs(h: Heap, h': Heap, h'': Heap, held: multiset<ChunkId>)
    requires SameBytes(h, h') && SameBytes(h, h'') && RefsMatch(h', held) && RefsMatch(h'', held)
    ensures h' == h''
  {
    assert h'.Keys == h''.Keys;
  }

  /** The record is ignored, closes the stream or is refused. */
  lemma StdoutNoSlice(s: Snapshot, r: nat, p: Packet, e: Entry, h': Heap)
    requires Good(s) && r < |s.reqs| == |s.track| && StdoutClean(s, r, e.len) && Concerns(p, s.off + r)
    requires e.len == |Body(p)| && OnStdout(s.reqs[r], e).0.iov == s.reqs[r].iov && SameBytes(s.heap, h')
    requires RefsMatch(h', Holders(s.conns, StdoutResult(s, r, p, e, h').reqs))
    ensures Good(StdoutResult(s, r, p, e, h'))
  {
    hide Good, RefsMatch, Holders, SameBytes, Concerns, ReadHeader, PacketSize, Body, ReqOk, BeingSent;
    var s' := StdoutResult(s, r, p, e, h');
    var q, t := s'.reqs[r], s'.track[r];
    GoodRefs(s);
    SameVectorRefs(s, r, q);
    SameBytesSelf(s.heap);
    HeapIs(s.heap, s.heap, h', Holders(s.conns, s.reqs));
    NoSliceOk(s, r, p, e);
    ConcernedOne(p, s.off, |s.reqs|, r);
    RecordHandled(s, p, s.heap, r, q, t);
  }

  lemma NoSliceOk(s: Snapshot, r: nat, p: Packet, e: Entry)
    requires Good(s) && r < |s.reqs| == |s.track| && StdoutClean(s, r, e.len) && e.len == |Body(p)|
    requires OnStdout(s.reqs[r], e).0.iov == s.reqs[r].iov
    ensures var s' := StdoutResult(s, r, p, e, s.heap);
            && ReqOk(s.heap, s'.reqs[r], s'.track[r], s'.log, s.off + r)
            && (s'.reqs[r].fd < 0 || s'.reqs[r].fd == s.reqs[r].fd)
            && forall i :: 0 <= i < |s.conns| && SendsTo(s.conns[i], r) ==>
                 BeingSent(s.heap, s.conns[i], s'.reqs[r], s'.track[r])
  {
    hide Good, ReadHeader, PacketSize, Body, ReqOk, BeingSent;
    var q, t, id := s.reqs[r], s.track[r], s.off + r;
    assert |q.iov + [e]| == |q.iov| + 1;
    GoodReq(s, r);
    ReqParts(s.heap, q, t, s.log, id);
    Senders(s, r);
    FailedOk(s.heap, Failing(q), t.(gone := 0), s.log + [p], id);
    forall i | 0 <= i < |s.conns| && SendsTo(s.conns[i], r)
      ensures BeingSent(s.heap, s.conns[i], Failing(q), t.(gone := 0))
    {
      FailedStillSent(s.heap, s.conns[i], q, t);
    }
    if q.state == Failed {
      FailedGone(s.heap, q, t, s.log, id);
      FailedOk(s.heap, q, t, s.log + [p], id);
    } else if q.state == Sent && e.len == 0 {
      StreamClosedOk(s.heap, q, t, s.log, id, p);
      NobodySends(s, r);
    }
  }

  lemma FailedGone(h: Heap, q: Request, t: Track, log: seq<Packet>, id: nat)
    requires ReqOk(h, q, t, log, id) && q.state == Failed
    ensures t.gone == 0
  {}

  /** The body joins the vector. */
  lemma StdoutSlice(s: Snapshot, r: nat, p: Packet, c: ChunkId, at: nat, h': Heap)
    requires Good(s) && r < |s.reqs| == |s.track| && Concerns(p, s.off + r) && StdoutClean(s, r, |Body(p)|)
    requires c in s.heap && at + |p| <= s.heap[c].write && at + |p| <= |s.heap[c].data|
    requires s.heap[c].data[at..at + |p|] == p && SameBytes(s.heap, h')
    requires OnStdout(s.reqs[r], Slice(p, c, at)).0.iov != s.reqs[r].iov
    requires RefsMatch(h', Holders(s.conns, StdoutResult(s, r, p, Slice(p, c, at), h').reqs))
    ensures Good(StdoutResult(s, r, p, Slice(p, c, at), h'))
  {
    hide Good, RefsMatch, Holders, SameBytes, Concerns, ReadHeader, PacketSize, Body, ReqOk, BeingSent, Retain,
      EntryOk, Content, IovOk;
    var e, s' := Slice(p, c, at), StdoutResult(s, r, p, Slice(p, c, at), h');
    var q := s'.reqs[r];
    assert s.reqs[r].state == Sent && q == s.reqs[r].(iov := s.reqs[r].iov + [e], cap := q.cap);
    ConcernedOne(p, s.off, |s.reqs|, r);
    GoodRefs(s);
    if Whole(s, r) {
      SliceAdded(s, p, r, c, at, e, q);
      VectorGrows(s.conns, s.reqs, r, q, e);
      RetainMatches(s.heap, Holders(s.conns, s.reqs), c) by { LiveHeld(s.heap, Holders(s.conns, s.reqs), c); }
      HeapIs(s.heap, Retain(s.heap, c), h', Holders(s.conns, s'.reqs));
    } else {
      SlicePlace(s.heap, c, at, p, e);
      UnansweredSlice(s, r, p, e, q);
      ReqOnSameBytes(s, h', r, q, s.track[r], s'.log);
      RecordHandled(s, p, h', r, q, s.track[r]);
    }
  }

  lemma UnansweredSlice(s: Snapshot, r: nat, p: Packet, e: Entry, q: Request)
    requires Good(s) && r < |s.reqs| == |s.track| && !Whole(s, r) && EntryOk(s.heap, e)
    requires s.reqs[r].state == Sent && q == s.reqs[r].(iov := s.reqs[r].iov + [e], cap := q.cap)
    ensures ReqOk(s.heap, q, s.track[r], s.log + [p], s.off + r) && (q.fd < 0 || q.fd == s.reqs[r].fd)
  {
    GoodReq(s, r) by { hide Good, ReqOk; }
    hide Good, HoldsAnswer, EntryOk;
    IovAppend(s.heap, s.reqs[r].iov, e);
  }
}
