/**
 * The other event handlers of plugins/fastcgi/fastcgi.c: taking a client's request, opening and
 * waking connections, sending a request, sending an answer, and hang-ups.
 */
module Handlers {
  import opened Bytes
  import opened Protocol
  import opened Records
  import opened Chunks
  import opened Requests
  import opened World
  import opened Fastcgi
  import opened Ring
  import Prepare
  import Receive

  // ----- connections ------------------------------------------------------------------------------

  /** fcgi_fd_list_get: the first slot of a location in one of the states. */
  method FindConn(cs: seq<Conn>, states: set<ConnState>, loc: nat) returns (r: Option<nat>)
    ensures r.Some? ==> IsFirst(cs, states, loc, r.value)
    ensures r.None? ==> HasNone(cs, states, loc)
  {
    var i := 0;
    while i < |cs|
      invariant 0 <= i <= |cs|
      invariant forall j :: 0 <= j < i ==> cs[j].state !in states || cs[j].locationId != loc
    {
      if cs[i].state in states && cs[i].locationId == loc {
        return Some(i);
      }
      i := i + 1;
    }
    r := None;
  }

  predicate Suits(c: Conn, states: set<ConnState>, loc: nat) { c.state in states && c.locationId == loc }

  /** Slot `i` is the first of the location in one of the states. */
  ghost predicate IsFirst(cs: seq<Conn>, states: set<ConnState>, loc: nat, i: nat) {
    i < |cs| && Suits(cs[i], states, loc) && forall j :: 0 <= j < i ==> !Suits(cs[j], states, loc)
  }

  ghost predicate HasNone(cs: seq<Conn>, states: set<ConnState>, loc: nat) {
    forall j :: 0 <= j < |cs| ==> !Suits(cs[j], states, loc)
  }

  /** The first free slot of the location, if there is one, is connected by `sock`. */
  ghost predicate Opens(cs: seq<Conn>, cs': seq<Conn>, loc: nat, sock: int) {
    if sock == -1 || HasNone(cs, {Free}, loc) then cs' == cs
    else exists i: nat :: IsFirst(cs, {Free}, loc, i) && i < |cs| && cs' == cs[i := cs[i].(fd := sock, state := Ready)]
  }

  /** No slot changes its server or its location. */
  ghost predicate SameSlots(cs: seq<Conn>, cs': seq<Conn>) {
    |cs'| == |cs|
    && forall i :: 0 <= i < |cs| ==> cs'[i].serverId == cs[i].serverId && cs'[i].locationId == cs[i].locationId
  }

  /** fcgi_wake_connection: whether a connection is there to take a request; a sleeping one is woken. */
  method WakeConnection(ctx: Context, loc: nat) returns (found: bool)
    requires ctx.Inv()
    modifies ctx`conns
    ensures ctx.Inv() && SameSlots(old(ctx.conns), ctx.conns)
    ensures forall j :: 0 <= j < |ctx.conns| ==> ctx.conns[j].fd == old(ctx.conns)[j].fd
    ensures found <==> !HasNone(old(ctx.conns), {Asleep, Ready}, loc)
    ensures !found ==> ctx.conns == old(ctx.conns)
    ensures found ==> exists i: nat :: IsFirst(old(ctx.conns), {Asleep, Ready}, loc, i) && i < |old(ctx.conns)|
                                     && ctx.conns == old(ctx.conns)[i := old(ctx.conns)[i].(state := Ready)]
  {
    hide Good, IsPowerOf2;
    var i := FindConn(ctx.conns, {Asleep, Ready}, loc);
    found := i.Some?;
    if i.Some? && ctx.conns[i.value].state == Asleep {
      ctx.ReadyAgain(i.value);
    }
  }

  /**
   * fcgi_new_connection: a free slot of the location is connected; `sock` is what connecting came
   * to, a socket not yet in use or -1.
   */
  method NewConnection(ctx: Context, loc: nat, sock: int) returns (ok: bool)
    requires ctx.Inv() && sock >= -1 && forall j :: 0 <= j < |ctx.conns| ==>
        ctx.conns[j].fd == -1 || ctx.conns[j].fd != sock
    modifies ctx`conns
    ensures ctx.Inv() && SameSlots(old(ctx.conns), ctx.conns)
    ensures ok <==> sock != -1 || HasNone(old(ctx.conns), {Free}, loc)
    ensures Opens(old(ctx.conns), ctx.conns, loc, sock)
  {
    hide Good, IsPowerOf2;
    var i := FindConn(ctx.conns, {Free}, loc);
    ok := i.None? || sock != -1;
    if i.Some? && sock != -1 {
      var c := ctx.conns[i.value].(fd := sock, state := Ready);
      SetConn(ctx.Now(), i.value, c);
      ctx.conns := ctx.conns[i.value := c];
    }
  }

  /** hangup of a connection: the slot is free again; a closing one is replaced. */
  method HangupConn(ctx: Context, i: nat, sock: int)
    requires ctx.InvFreed(i) && sock >= -1
    requires forall j :: 0 <= j < |ctx.conns| ==> ctx.conns[j].fd == -1 || ctx.conns[j].fd != sock
    modifies ctx`conns
    ensures ctx.Inv() && SameSlots(old(ctx.conns), ctx.conns)
    ensures var freed := old(ctx.conns)[i := old(ctx.conns[i]).(fd := -1, state := Free)];
            if old(ctx.conns[i].state) == Closing then Opens(freed, ctx.conns, old(ctx.conns[i].locationId), sock)
            else ctx.conns == freed
  {
    hide Good, IsPowerOf2;
    var closing := ctx.conns[i].state == Closing;
    ctx.conns := ctx.conns[i := ctx.conns[i].(fd := -1, state := Free)];
    if closing {
      var _ := NewConnection(ctx, ctx.conns[i].locationId, sock);
    }
  }

  // ----- taking a request -------------------------------------------------------------------------

  lemma NobodySendsIdle(s: Snapshot, r: nat)
    requires Good(s) && r < |s.reqs| && s.reqs[r].state != Sent && s.reqs[r].state != Failed
    ensures forall i :: 0 <= i < |s.conns| ==> !SendsTo(s.conns[i], r)
  {
    hide Good;
    GoodSizes(s);
    NobodySends(s, r);
  }

  lemma AvailableIsClean(s: Snapshot, r: nat)
    requires Good(s) && r < |s.reqs| && s.reqs[r].state == Available
    ensures s.reqs[r] == Reset(s.reqs[r])
  {
    GoodReq(s, r) by { hide ReqOk; }
    hide Good, HoldsAnswer;
  }

  /** A request with its prepared bytes, or a failed one when preparing them failed. */
  function Assignment(q: Request, fd: int, loc: nat, prepared: Option<seq<byte>>): Request {
    q.(state := if prepared.Some? then Assigned else Failed, fd := fd, clockId := loc,
       iov := if prepared.Some? then [Entry(Buffer(prepared.value), 0, |prepared.value|)] else [])
  }

  lemma AssignmentOk(h: Heap, q: Request, fd: int, loc: nat, prepared: Option<seq<byte>>, log: seq<Packet>, id: nat)
    requires fd >= 0 && !q.sleeping
    ensures var t := Track(if prepared.Some? then prepared.value else [], [], None, 0);
            ReqOk(h, Assignment(q, fd, loc, prepared), t, log, id)
    ensures IovRefs(Assignment(q, fd, loc, prepared).iov) == multiset{}
  {
    if prepared.Some? {
      var e := Entry(Buffer(prepared.value), 0, |prepared.value|);
      assert [e][1..] == [] && IovBytes(h, []) == [];
      assert prepared.value[0..|prepared.value|] == prepared.value;
      assert IovBytes(h, [e]) == prepared.value + [];
    }
  }

  lemma SameRefs(s: Snapshot, r: nat, q: Request)
    requires r < |s.reqs| && IovRefs(q.iov) == IovRefs(s.reqs[r].iov)
    ensures Holders(s.conns, s.reqs[r := q]) == Holders(s.conns, s.reqs)
  {
    hide IovRefs;
    ReqRefsUpdate(s.reqs, r, q);
    Cancel(ReqRefs(s.reqs[r := q]), ReqRefs(s.reqs), IovRefs(q.iov));
  }

  /** A free slot is assigned to client `fd`, which no other slot holds. */
  lemma AssignGood(s: Snapshot, r: nat, fd: int, loc: nat, prepared: Option<seq<byte>>)
    requires Good(s) && r < |s.reqs| && s.reqs[r].state == Available && fd >= 0 && FdSlots(s.reqs, fd) == {}
    ensures var t := Track(if prepared.Some? then prepared.value else [], [], None, 0);
            Good(s.(reqs := s.reqs[r := Assignment(s.reqs[r], fd, loc, prepared)], track := s.track[r := t]))
  {
    AvailableIsClean(s, r);
    hide Good, ReqOk, RefsMatch, Holders, SendsTo, IovRefs;
    NobodySendsIdle(s, r);
    var q := Assignment(s.reqs[r], fd, loc, prepared);
    AssignmentOk(s.heap, s.reqs[r], fd, loc, prepared, s.log, s.off + r);
    NoRefs();
    SameRefs(s, r, q);
    GoodRefs(s);
    GoodReq(s, r);
    SameBytesSelf(s.heap);
    SetVector(s, s.heap, r, q, Track(if prepared.Some? then prepared.value else [], [], None, 0));
  }

  /** A request can be prepared for an id and an environment. */
  predicate Preparable(id: nat, pairs: seq<Pair>) {
    id > 0 && Prepare.ParamsEnd(pairs) + 16 < Prepare.BUFFER_SIZE
  }

  /** request_list_index_of: the id of slot `r`, kept in a `uint16_t`. */
  function WireId(off: nat, r: nat): uint16 { (off + r) % TWO16 }

  /** The id a request goes out with leads back to its slot exactly when it did not wrap. */
  lemma WireIdReaches(off: nat, n: nat, r: nat)
    requires off < TWO16 && r < n <= TWO16
    ensures (off <= WireId(off, r) < off + n && WireId(off, r) - off == r) <==> off + r < TWO16
  {}

  /** fcgi_prepare_request for slot `r`: the bytes of the request, or failure. */
  method PrepareBytes(ctx: Context, r: nat, keepAlive: bool, pairs: seq<Pair>) returns (prepared: Option<seq<byte>>)
    ensures prepared.Some? <==> Preparable(WireId(ctx.rl.idOffset, r), pairs)
    ensures prepared.Some? ==>
              && Prepare.IsRequest(prepared.value, WireId(ctx.rl.idOffset, r), keepAlive, Prepare.Sent(pairs))
              && prepared.value != []
  {
    hide Prepare.IsRequest;
    var buf := new byte[Prepare.BUFFER_SIZE](_ => 0);
    var ok, pos := Prepare.PrepareRequest(buf, WireId(ctx.rl.idOffset, r), keepAlive, pairs);
    prepared := if ok then Some(buf[..pos]) else None;
  }

  /** What came of a client's request. */
  datatype Taken = Ghost | NoSlot | Slot(r: nat)

  /**
   * _mkp_stage_30, up to the prepared request: a client that already has a slot is left alone,
   * otherwise an available slot is assigned to it.
   */
  method Assign(ctx: Context, fd: int, loc: nat, keepAlive: bool, pairs: seq<Pair>) returns (t: Taken)
    requires ctx.Inv() && fd >= 0
    modifies ctx`track, ctx.rl`rs, ctx.rl`entries, ctx.rl`hand
    ensures ctx.Inv() && |ctx.rl.rs| == |old(ctx.rl.rs)| == |ctx.track|
    ensures t.Ghost? <==> FdSlots(old(ctx.rl.rs), fd) != {}
    ensures t.NoSlot? ==> AvailableSlots(old(ctx.rl.rs)) == {}
    ensures !t.Slot? ==> ctx.rl.rs == old(ctx.rl.rs)
    ensures t.Slot? ==>
              && FirstFrom(old(ctx.rl.ClockHand(loc)), |old(ctx.rl.rs)|, t.r, AvailableSlots(old(ctx.rl.rs)))
              && t.r < |ctx.rl.rs| && old(ctx.rl.rs)[t.r].state == Available
              && ctx.rl.rs == old(ctx.rl.rs)[t.r := ctx.rl.rs[t.r]]
              && ctx.rl.rs[t.r].fd == fd && ctx.rl.rs[t.r].clockId == loc && !ctx.rl.rs[t.r].sleeping
              && ctx.rl.rs[t.r].state == if Preparable(WireId(ctx.rl.idOffset, t.r), pairs) then Assigned else Failed
    ensures t.Slot? && ctx.rl.rs[t.r].state == Assigned ==>
              Prepare.IsRequest(ctx.track[t.r].whole, WireId(ctx.rl.idOffset, t.r), keepAlive, Prepare.Sent(pairs))
  {
    hide Good, IsPowerOf2, Prepare.IsRequest, Prepare.ParamsEnd;
    var known := ctx.rl.GetByFd(fd);
    GoodSizes(ctx.Now());
    if known.Some? {
      assert known.value in FdSlots(ctx.rl.rs, fd);
      return Ghost;
    }
    var free := ctx.rl.NextAvailable(loc);
    if free.None? {
      return NoSlot;
    }
    var r := free.value;
    assert r in AvailableSlots(ctx.rl.rs);
    var prepared := PrepareBytes(ctx, r, keepAlive, pairs);
    AvailableIsClean(ctx.Now(), r);
    AssignGood(ctx.Now(), r, fd, loc, prepared);
    ctx.Store(r, Assignment(ctx.rl.rs[r], fd, loc, prepared),
              Track(if prepared.Some? then prepared.value else [], [], None, 0));
    t := Slot(r);
  }

  lemma GoodSizes(s: Snapshot)
    requires Good(s)
    ensures |s.track| == |s.reqs| && UniqueFds(s.reqs)
  {
    hide RefsMatch, Holders, ConnsOk, SendingOk;
  }

  /** A connection is there to be woken, or opening one does not fail. */
  ghost predicate Reachable(cs: seq<Conn>, loc: nat, sock: int) {
    !HasNone(cs, {Asleep, Ready}, loc) || sock != -1 || HasNone(cs, {Free}, loc)
  }

  /** A connection of the location is ready for its next request, or all of its slots are in use. */
  ghost predicate HasTaker(cs: seq<Conn>, loc: nat) {
    || (exists i :: 0 <= i < |cs| && cs[i].locationId == loc && cs[i].state == Ready)
    || (forall i :: 0 <= i < |cs| && cs[i].locationId == loc ==>
          cs[i].state == Sending || cs[i].state == Receiving || cs[i].state == Closing)
  }

  lemma WokenTakes(cs: seq<Conn>, cs': seq<Conn>, loc: nat, i: nat)
    requires IsFirst(cs, {Asleep, Ready}, loc, i) && cs' == cs[i := cs[i].(state := Ready)]
    ensures HasTaker(cs', loc)
  {
    assert cs'[i].locationId == loc && cs'[i].state == Ready;
  }

  lemma OpenedTakes(cs: seq<Conn>, cs': seq<Conn>, loc: nat, sock: int)
    requires HasNone(cs, {Asleep, Ready}, loc) && Opens(cs, cs', loc, sock) && (sock != -1 || HasNone(cs, {Free}, loc))
    ensures HasTaker(cs', loc)
  {
    if HasNone(cs, {Free}, loc) {
      forall i | 0 <= i < |cs| && cs[i].locationId == loc
        ensures cs[i].state == Sending || cs[i].state == Receiving || cs[i].state == Closing
      {
        assert !Suits(cs[i], {Asleep, Ready}, loc) && !Suits(cs[i], {Free}, loc);
      }
    } else {
      var i: nat :| IsFirst(cs, {Free}, loc, i) && i < |cs| && cs' == cs[i := cs[i].(fd := sock, state := Ready)];
      assert cs'[i].locationId == loc && cs'[i].state == Ready;
    }
  }

  /** _mkp_stage_30: after the assignment a connection is woken or opened, and the client sleeps. */
  method Stage30(ctx: Context, fd: int, loc: nat, keepAlive: bool, pairs: seq<Pair>, sock: int) returns (t: Taken)
    requires ctx.Inv() && fd >= 0
    requires sock >= -1 && forall j :: 0 <= j < |ctx.conns| ==> ctx.conns[j].fd == -1 || ctx.conns[j].fd != sock
    modifies ctx`track, ctx`conns, ctx.rl`rs, ctx.rl`entries, ctx.rl`hand
    ensures ctx.Inv() && SameSlots(old(ctx.conns), ctx.conns)
    ensures t.Ghost? <==> FdSlots(old(ctx.rl.rs), fd) != {}
    ensures !t.Slot? ==> ctx.rl.rs == old(ctx.rl.rs) && ctx.conns == old(ctx.conns)
    ensures t.Slot? ==>
              && t.r < |ctx.rl.rs| == |old(ctx.rl.rs)| && ctx.rl.rs == old(ctx.rl.rs)[t.r := ctx.rl.rs[t.r]]
              && ctx.rl.rs[t.r].fd == fd && ctx.rl.rs[t.r].clockId == loc
              && ctx.rl.rs[t.r].state == (if Preparable(WireId(ctx.rl.idOffset, t.r), pairs)
                                             && Reachable(old(ctx.conns), loc, sock) then Assigned else Failed)
              && ctx.rl.rs[t.r].sleeping == (ctx.rl.rs[t.r].state == Assigned)
              && (ctx.rl.rs[t.r].state == Assigned ==> HasTaker(ctx.conns, loc))
  {
    hide Good, IsPowerOf2, Prepare.IsRequest, FdSlots, AvailableSlots, HasTaker;
    ghost var conns := ctx.conns;
    t := Assign(ctx, fd, loc, keepAlive, pairs);
    if !t.Slot? || ctx.rl.rs[t.r].state == Failed {
      return;
    }
    var found := WakeConnection(ctx, loc);
    var ok := true;
    if found {
      ghost var i: nat :| IsFirst(conns, {Asleep, Ready}, loc, i) && i < |conns|
                          && ctx.conns == conns[i := conns[i].(state := Ready)];
      WokenTakes(conns, ctx.conns, loc, i);
    } else {
      ok := NewConnection(ctx, loc, sock);
    }
    if ok {
      if !found {
        OpenedTakes(conns, ctx.conns, loc, sock);
      }
      Sleep(ctx, t.r);
    } else {
      NobodySendsIdle(ctx.Now(), t.r);
      ctx.Fail(t.r);
    }
  }

  /** request_set_flag(REQ_SLEEPING) on an assigned request. */
  method Sleep(ctx: Context, r: nat)
    requires ctx.Inv() && r < |ctx.rl.rs| && ctx.rl.rs[r].state == Assigned
    modifies ctx`track, ctx.rl`rs
    ensures ctx.Inv() && ctx.rl.rs == old(ctx.rl.rs)[r := old(ctx.rl.rs[r]).(sleeping := true)]
  {
    hide Good, IsPowerOf2, SendsTo;
    ghost var s := ctx.Now();
    GoodReq(s, r) by { hide ReqOk; }
    NobodySendsIdle(s, r);
    var q := ctx.rl.rs[r].(sleeping := true);
    SetRequest(s, r, q, ctx.track[r]);
    ctx.Store(r, q, ctx.track[r]);
  }

  // ----- sending a request --------------------------------------------------------------------------

  lemma SentOk(h: Heap, q: Request, t: Track, log: seq<Packet>, id: nat, fd: int)
    requires ReqOk(h, q, t, log, id) && q.state == Assigned
    ensures ReqOk(h, q.(fcgiFd := fd, state := Sent), t, log, id)
    ensures BeingSent(h, Conn(Sending, fd, 0, 0, IovLength(q.iov), None, None), q.(fcgiFd := fd, state := Sent), t)
  {
    assert [] + IovBytes(h, q.iov) == IovBytes(h, q.iov);
    hide HoldsAnswer, IovBytes;
  }

  /** The request goes out on connection `i`: both change, and nobody else sends it. */
  lemma StartGood(s: Snapshot, i: nat, r: nat, q: Request, c: Conn)
    requires Good(s) && i < |s.conns| && s.conns[i].state == Ready && r < |s.reqs| && s.reqs[r].state == Assigned
    requires q == s.reqs[r].(fcgiFd := s.conns[i].fd, state := Sent)
    requires c == s.conns[i].(state := Sending, beginReq := Some(r), remain := IovLength(q.iov))
    ensures |s.track| == |s.reqs|
    ensures Good(s.(conns := s.conns[i := c], reqs := s.reqs[r := q], track := s.track[r := s.track[r]]))
  {
    hide Good, ReqOk, BeingSent, IovLength;
    GoodReq(s, r);
    SentOk(s.heap, s.reqs[r], s.track[r], s.log, s.off + r, s.conns[i].fd);
    NobodySendsIdle(s, r);
    SetRequest(s, r, q, s.track[r]);
    var s1 := s.(reqs := s.reqs[r := q], track := s.track[r := s.track[r]]);
    GoodConn(s1, i);
    SendingAs(s.heap, Conn(Sending, c.fd, 0, 0, c.remain, None, None), c, q, s.track[r]);
    forall j | 0 <= j < |s.conns| && j != i ensures !SendSame(c, s.conns[j]) {
      assert !SendsTo(s.conns[j], r);
    }
    SetConn(s1, i, c);
  }

  lemma SendingAs(h: Heap, c: Conn, d: Conn, q: Request, t: Track)
    requires BeingSent(h, c, q, t) && c.fd == d.fd && c.remain == d.remain
    ensures BeingSent(h, d, q, t)
  {}

  /**
   * _mkp_event_write on a ready connection: the next assigned request of the location is taken, or
   * the connection goes to sleep; without keep-alive it is to be closed.
   */
  method StartSend(ctx: Context, i: nat, keepAlive: bool) returns (r: Option<nat>, ok: bool)
    requires ctx.Inv() && i < |ctx.conns| && ctx.conns[i].state == Ready
    modifies ctx`track, ctx`conns, ctx.rl`rs, ctx.rl`entries, ctx.rl`hand, ctx.rl`hands
    ensures ctx.Inv() && SameSlots(old(ctx.conns), ctx.conns) && |ctx.track| == |ctx.rl.rs| == |old(ctx.rl.rs)|
    ensures r.None? ==> AssignedSlots(old(ctx.rl.rs), old(ctx.conns[i].locationId)) == {} && ctx.rl.rs == old(ctx.rl.rs)
    ensures r.None? ==> ok == keepAlive && ctx.conns[i].state == if keepAlive then Asleep else Ready
    ensures r.Some? ==>
              && FirstFrom(old(ctx.rl.ClockHand(ctx.conns[i].locationId)), |old(ctx.rl.rs)|, r.value,
                           AssignedSlots(old(ctx.rl.rs), old(ctx.conns[i].locationId)))
              && r.value < |old(ctx.rl.rs)| && old(ctx.rl.rs)[r.value].state == Assigned
              && old(ctx.rl.rs)[r.value].clockId == old(ctx.conns[i].locationId)
              && ctx.rl.rs == old(ctx.rl.rs)[r.value := old(ctx.rl.rs)[r.value].(fcgiFd := old(ctx.conns[i].fd),
                  state := Sent)]
              && ctx.conns == old(ctx.conns)[i := old(ctx.conns[i]).(
                                state := Sending, beginReq := r, remain := IovLength(old(ctx.rl.rs)[r.value].iov))]
              && ctx.track == old(ctx.track) && ok
  {
    hide Good, IsPowerOf2, FirstFrom, IovLength;
    ghost var s := ctx.Now();
    GoodSizes(s);
    var loc := ctx.conns[i].locationId;
    r := ctx.rl.NextAssigned(loc);
    ok := r.Some? || keepAlive;
    if r.Some? {
      InAssigned(old(ctx.rl.ClockHand(loc)), |ctx.rl.rs|, r.value, ctx.rl.rs, loc);
      var q := ctx.rl.rs[r.value].(fcgiFd := ctx.conns[i].fd, state := Sent);
      var n := Length(q.iov);
      var c := ctx.conns[i].(state := Sending, beginReq := Some(r.value), remain := n);
      StartGood(s, i, r.value, q, c);
      ctx.Store(r.value, q, ctx.track[r.value]);
      ctx.conns := ctx.conns[i := c];
    } else if keepAlive {
      GoodConn(s, i);
      SetConn(s, i, ctx.conns[i].(state := Asleep));
      ctx.conns := ctx.conns[i := ctx.conns[i].(state := Asleep)];
    }
  }

  lemma InAssigned(clock: nat, size: nat, r: nat, rs: seq<Request>, loc: nat)
    requires clock < size && FirstFrom(clock, size, r, AssignedSlots(rs, loc))
    ensures r < |rs| && rs[r].state == Assigned && rs[r].clockId == loc
  {}

  // ----- partial writes -------------------------------------------------------------------------------

  lemma SentBy(s: Snapshot, i: nat)
    requires Good(s) && i < |s.conns| && s.conns[i].state == Sending
    ensures SendingNow(s.heap, s.conns[i], s.reqs, s.track)
    ensures forall j :: 0 <= j < |s.conns| && j != i ==> !SendSame(s.conns[i], s.conns[j])
  {
    hide RefsMatch, Holders, ReqsOk, ConnsOk, UniqueFds, SendingNow;
  }

  /** The vector and the books after `n` more bytes have gone to the server. */
  lemma PartOk(h: Heap, c: Conn, q: Request, t: Track, n: nat, log: seq<Packet>, id: nat)
    requires BeingSent(h, c, q, t) && ReqOk(h, q, t, log, id) && n <= c.remain
    ensures var q' := q.(iov := Dropped(q.iov, n));
            var t' := t.(out := t.out + IovBytes(h, q.iov)[..n]);
            && ReqOk(h, q', t', log, id) && BeingSent(h, c.(remain := c.remain - n), q', t')
            && IovRefs(q'.iov) == IovRefs(q.iov)
  {
    hide Dropped, IovBytes, IovRefs, IovOk, HoldsAnswer, IovLength;
    DropBytes(h, q.iov, n);
    Rejoin(t.out, IovBytes(h, q.iov), n);
    UnansweredOk(h, q.(iov := Dropped(q.iov, n)), t.(out := t.out + IovBytes(h, q.iov)[..n]), log, id);
  }

  lemma Rejoin(a: seq<byte>, b: seq<byte>, n: nat)
    requires n <= |b|
    ensures a + b[..n] + b[n..] == a + b
  {}

  lemma UnansweredOk(h: Heap, q: Request, t: Track, log: seq<Packet>, id: nat)
    requires IovOk(h, q.iov) && q.fd >= -1 && SleepOk(q)
    requires (q.state == Sent || q.state == Failed) && t.since.None? && t.gone == 0
    ensures ReqOk(h, q, t, log, id)
  {}

  lemma PartGood(s: Snapshot, i: nat, r: nat, n: nat, q: Request, t: Track)
    requires Good(s) && i < |s.conns| && SendsTo(s.conns[i], r) && r < |s.reqs| == |s.track|
    requires IovOk(s.heap, s.reqs[r].iov) && n <= s.conns[i].remain
    requires q == s.reqs[r].(iov := Dropped(s.reqs[r].iov, n))
    requires t == s.track[r].(out := s.track[r].out + IovBytes(s.heap, s.reqs[r].iov)[..n])
        && n <= IovLength(s.reqs[r].iov)
    ensures Good(s.(conns := s.conns[i := s.conns[i].(remain := s.conns[i].remain - n)],
                    reqs := s.reqs[r := q], track := s.track[r := t]))
  {
    hide Good, ReqOk, BeingSent, IovRefs, IovBytes, IovOk, Dropped, Holders, RefsMatch, IovLength;
    var c := s.conns[i];
    SentBy(s, i);
    GoodReq(s, r);
    GoodConn(s, i);
    PartOk(s.heap, c, s.reqs[r], s.track[r], n, s.log, s.off + r);
    SetConn(s, i, c.(state := Receiving));
    var s1 := s.(conns := s.conns[i := c.(state := Receiving)]);
    SameRefs(s1, r, q);
    GoodRefs(s1);
    SameBytesSelf(s.heap);
    OnlySender(s, i, r);
    SetVector(s1, s.heap, r, q, t);
    var s2 := s1.(reqs := s.reqs[r := q], track := s.track[r := t]);
    SetConn(s2, i, c.(remain := c.remain - n));
    assert s1.conns[i := c.(remain := c.remain - n)] == s.conns[i := c.(remain := c.remain - n)];
  }

  lemma OnlySender(s: Snapshot, i: nat, r: nat)
    requires Good(s) && i < |s.conns| && SendsTo(s.conns[i], r)
    ensures forall j :: 0 <= j < |s.conns| && j != i ==> !SendsTo(s.conns[j], r)
  {
    hide Good;
    SentBy(s, i);
    forall j | 0 <= j < |s.conns| && j != i ensures !SendsTo(s.conns[j], r) {
      assert !SendSame(s.conns[i], s.conns[j]);
    }
  }

  /** The last byte has gone: the connection receives, and the answer begins here in the log. */
  lemma WholeOk(h: Heap, q: Request, t: Track, log: seq<Packet>, id: nat)
    requires q.iov == [] && q.fd >= -1 && SleepOk(q)
    requires (q.state == Sent || q.state == Failed) && t.since == Some(|log|) && t.gone == 0
    ensures ReqOk(h, q, t, log, id)
  {
    assert log[|log|..] == [];
    assert Stdout([], id) == [] && IovBytes(h, []) == [];
  }

  lemma WholeGood(s: Snapshot, i: nat, r: nat, h': Heap, c: Conn, q: Request, t: Track)
    requires Good(s) && i < |s.conns| && SendsTo(s.conns[i], r) && r < |s.reqs| == |s.track|
    requires c == s.conns[i].(state := Receiving, remain := 0, beginReq := None)
    requires q == s.reqs[r].(iov := []) && SameBytes(s.heap, h')
    requires RefsMatch(h', Holders(s.conns, s.reqs[r := q]))
    requires t == s.track[r].(out := s.track[r].whole, since := Some(|s.log|))
    ensures Good(s.(heap := h', conns := s.conns[i := c], reqs := s.reqs[r := q], track := s.track[r := t]))
  {
    SentBy(s, i) by { hide Good; }
    GoodReq(s, r) by { hide Good, ReqOk; }
    assert t.gone == 0 && q.fd >= -1 && SleepOk(q) && (q.state == Sent || q.state == Failed) by {
      hide Good, HoldsAnswer, IovBytes;
    }
    hide Good, ReqOk, BeingSent, Holders, RefsMatch, SameBytes;
    GoodConn(s, i);
    SetConn(s, i, c);
    var s1 := s.(conns := s.conns[i := c]);
    OnlySender(s, i, r);
    WholeOk(h', q, t, s.log, s.off + r);
    SameHolders(s.conns, i, c, s.reqs[r := q]);
    SetVector(s1, h', r, q, t);
  }

  /** Nothing but the vector of request `r` has changed. */
  ghost predicate OnlyVector(rs: seq<Request>, rs': seq<Request>, r: nat) {
    r < |rs| == |rs'| && rs' == rs[r := rs[r].(iov := rs'[r].iov)]
  }

  /**
   * _mkp_event_write on a sending connection: `n` bytes were accepted by the socket. What has gone
   * out and what is left always make the queued request, and the connection starts receiving
   * exactly when the last byte has gone.
   */
  method SendPart(ctx: Context, i: nat, n: nat) returns (ghost wire: seq<byte>)
    requires ctx.Inv() && i < |ctx.conns| && ctx.conns[i].state == Sending && n <= ctx.conns[i].remain
    modifies ctx`heap, ctx`track, ctx`conns, ctx.rl`rs
    ensures ctx.Inv() && SameSlots(old(ctx.conns), ctx.conns)
    ensures |ctx.track| == |old(ctx.track)| && old(ctx.conns[i].beginReq.Some?)
    ensures old(ctx.conns[i].beginReq.value) < |ctx.track|
    ensures |wire| == n
    ensures var r := old(ctx.conns[i].beginReq.value);
            && ctx.track[r].whole == old(ctx.track)[r].whole
            && ctx.track[r].out == old(ctx.track)[r].out + wire
            && ctx.track[r].out <= ctx.track[r].whole
    ensures if n == old(ctx.conns[i].remain)
            then ctx.conns == old(ctx.conns)[i := old(ctx.conns[i]).(state := Receiving, remain := 0, beginReq := None)]
                 && ctx.track[old(ctx.conns[i].beginReq.value)].out == ctx.track[old(ctx.conns[i].beginReq.value)].whole
                 && ctx.track[old(ctx.conns[i].beginReq.value)].since == Some(|ctx.log|)
            else ctx.conns == old(ctx.conns)[i := old(ctx.conns[i]).(remain := old(ctx.conns[i].remain) - n)]
    ensures OnlyVector(old(ctx.rl.rs), ctx.rl.rs, old(ctx.conns[i].beginReq.value))
    ensures ctx.track == old(ctx.track)[old(ctx.conns[i].beginReq.value) := ctx.track[old(ctx.conns[i].beginReq.value)]]
    ensures n < old(ctx.conns[i].remain) ==>
              ctx.track[old(ctx.conns[i].beginReq.value)].since
              == old(ctx.track)[old(ctx.conns[i].beginReq.value)].since
  {
    hide Good, IsPowerOf2, IovBytes, IovLength, IovOk, FreshAbove, SameBytes;
    ghost var s := ctx.Now();
    GoodSizes(s);
    SentBy(s, i);
    var r := ctx.conns[i].beginReq.value;
    var remain := ctx.conns[i].remain - n;
    ghost var left := IovBytes(ctx.heap, ctx.rl.rs[r].iov);
    wire := left[..n];
    Rejoin(ctx.track[r].out, left, n);
    if remain == 0 {
      assert left[..n] == left;
      SendDone(ctx, i, r);
    } else {
      SendSome(ctx, i, r, n);
    }
  }

  lemma NoneDropped(iov: Iov)
    ensures Dropped(iov, 0) == iov
  {}

  /** Part of the request has gone: its vector is shortened by as much. */
  method SendSome(ctx: Context, i: nat, r: nat, n: nat)
    requires ctx.Inv() && i < |ctx.conns| && SendsTo(ctx.conns[i], r) && r < |ctx.rl.rs| == |ctx.track|
    requires n <= ctx.conns[i].remain && IovOk(ctx.heap, ctx.rl.rs[r].iov) && n <= IovLength(ctx.rl.rs[r].iov)
    modifies ctx`heap, ctx`track, ctx`conns, ctx.rl`rs
    ensures ctx.Inv() && ctx.conns == old(ctx.conns)[i := old(ctx.conns[i]).(remain := old(ctx.conns[i].remain) - n)]
    ensures ctx.track == old(ctx.track)[r := old(ctx.track)[r].(out := old(ctx.track)[r].out
        + IovBytes(old(ctx.heap), old(ctx.rl.rs)[r].iov)[..n])]
    ensures OnlyVector(old(ctx.rl.rs), ctx.rl.rs, r)
  {
    hide Good, IsPowerOf2, IovBytes, IovLength, IovOk, FreshAbove, SameBytes, Dropped;
    ghost var s := ctx.Now();
    var ok, io := Drop(ctx.rl.rs[r].iov, n);
    NoneDropped(ctx.rl.rs[r].iov);
    ghost var t := ctx.track[r].(out := ctx.track[r].out + IovBytes(ctx.heap, ctx.rl.rs[r].iov)[..n]);
    PartGood(s, i, r, n, ctx.rl.rs[r].(iov := io), t);
    ctx.Store(r, ctx.rl.rs[r].(iov := io), t);
    ctx.conns := ctx.conns[i := ctx.conns[i].(remain := ctx.conns[i].remain - n)];
  }

  /** The request has gone whole: its vector is reset and the connection waits for the answer. */
  method SendDone(ctx: Context, i: nat, r: nat)
    requires ctx.Inv() && i < |ctx.conns| && SendsTo(ctx.conns[i], r) && r < |ctx.rl.rs| == |ctx.track|
    modifies ctx`heap, ctx`track, ctx`conns, ctx.rl`rs
    ensures ctx.Inv() && SameSlots(old(ctx.conns), ctx.conns) && |ctx.rl.rs| == |old(ctx.rl.rs)| == |ctx.track|
    ensures ctx.conns == old(ctx.conns)[i := old(ctx.conns[i]).(state := Receiving, remain := 0, beginReq := None)]
    ensures ctx.track == old(ctx.track)[r := old(ctx.track[r]).(out := old(ctx.track[r].whole),
        since := Some(|ctx.log|))]
    ensures OnlyVector(old(ctx.rl.rs), ctx.rl.rs, r)
  {
    hide Good, IsPowerOf2, FreshAbove, SameBytes, RefsMatch, Holders;
    ghost var s := ctx.Now();
    GoodRefs(s);
    var c := ctx.conns[i].(state := Receiving, remain := 0, beginReq := None);
    var q := ctx.rl.rs[r].(iov := []);
    VectorGone(ctx.conns, ctx.rl.rs, r, q);
    ctx.heap := FreeRefs(ctx.heap, ctx.rl.rs[r].iov, Holders(ctx.conns, ctx.rl.rs[r := q]));
    ghost var t := ctx.track[r].(out := ctx.track[r].whole, since := Some(|ctx.log|));
    WholeGood(s, i, r, ctx.heap, c, q, t);
    StillFresh(s.heap, ctx.heap, ctx.nextId);
    ctx.Store(r, q, t);
    ctx.conns := ctx.conns[i := c];
  }

  // ----- sending the answer ---------------------------------------------------------------------------

  /** The answer that client and server have agreed on so far for slot `r`. */
  ghost function Answer(s: Snapshot, r: nat): seq<byte>
    requires r < |s.track| && s.track[r].since.Some? && s.track[r].since.value <= |s.log|
  {
    Stdout(s.log[s.track[r].since.value..], s.off + r)
  }

  /**
   * However records for many requests were interleaved, the vector of a request that has been sent
   * whole stands for the bodies of its own STDOUT records, in order, less what its client has.
   */
  lemma AnswerHeld(s: Snapshot, r: nat)
    requires Good(s) && r < |s.reqs| == |s.track| && Answering(s.reqs[r].state) && s.track[r].since.Some?
    ensures s.track[r].since.value <= |s.log| && IovOk(s.heap, s.reqs[r].iov) && s.track[r].gone <= |Answer(s, r)|
    ensures IovBytes(s.heap, s.reqs[r].iov) == Answer(s, r)[s.track[r].gone..]
  {
    GoodReq(s, r) by { hide Good, ReqOk; }
    hide Good, IovBytes, Stdout;
  }

  /**
   * No client sleeps in vain: in every state of the worker a sleeping client's request is still to be
   * sent or answered. Whatever ends a request or fails it has woken its client.
   */
  lemma NobodySleepsInVain(s: Snapshot, r: nat)
    requires Good(s) && r < |s.reqs| && s.reqs[r].sleeping && s.reqs[r].fd != -1
    ensures s.reqs[r].state == Assigned || s.reqs[r].state == Sent || s.reqs[r].state == StreamClosed
  {
    GoodReq(s, r) by { hide Good, ReqOk; }
    hide Good, HoldsAnswer, IovBytes;
  }

  /** An ended request holds exactly the rest of its answer. */
  lemma EndedHolds(s: Snapshot, r: nat)
    requires Good(s) && r < |s.reqs| && s.reqs[r].state == Ended
    ensures |s.track| == |s.reqs| && s.track[r].since.Some? && s.track[r].since.value <= |s.log|
    ensures IovOk(s.heap, s.reqs[r].iov) && s.track[r].gone <= |Answer(s, r)|
    ensures IovBytes(s.heap, s.reqs[r].iov) == Answer(s, r)[s.track[r].gone..]
  {
    GoodReq(s, r) by { hide Good, ReqOk; }
    hide Good, IovBytes, Stdout;
  }

  lemma DroppedAnswerOk(h: Heap, q: Request, t: Track, n: nat, log: seq<Packet>, id: nat)
    requires ReqOk(h, q, t, log, id) && q.state == Ended && n <= IovLength(q.iov)
    ensures ReqOk(h, q.(iov := Dropped(q.iov, n), headersSent := true), t.(gone := t.gone + n), log, id)
    ensures IovRefs(Dropped(q.iov, n)) == IovRefs(q.iov)
  {
    hide IovBytes, IovRefs, IovLength, Dropped, Stdout, IovOk;
    DropBytes(h, q.iov, n);
    var a := Stdout(log[t.since.value..], id);
    assert a[t.gone..][n..] == a[t.gone + n..];
  }

  /** `n` bytes of the answer are dropped from the vector of an ended request. */
  method DropAnswer(ctx: Context, r: nat, n: nat) returns (ok: bool)
    requires ctx.Inv() && r < |ctx.rl.rs| && ctx.rl.rs[r].state == Ended
    modifies ctx`track, ctx.rl`rs
    ensures ctx.Inv() && |ctx.rl.rs| == |old(ctx.rl.rs)| == |ctx.track| == |old(ctx.track)|
        && ctx.rl.rs[r].state == Ended
    ensures ok <==> 0 < n <= IovLength(old(ctx.rl.rs[r].iov))
    ensures ok ==> ctx.track == old(ctx.track)[r := old(ctx.track)[r].(gone := old(ctx.track)[r].gone + n)]
    ensures ok ==> ctx.rl.rs[r] == old(ctx.rl.rs[r]).(iov := ctx.rl.rs[r].iov, headersSent := true)
    ensures !ok ==> ctx.rl.rs == old(ctx.rl.rs) && ctx.track == old(ctx.track)
  {
    hide Good, IsPowerOf2, ReqOk, IovLength, Dropped, RefsMatch, Holders, SameBytes, IovRefs, SendsTo;
    ghost var s := ctx.Now();
    GoodReq(s, r);
    var io;
    ok, io := Drop(ctx.rl.rs[r].iov, n);
    if ok {
      var q := ctx.rl.rs[r].(iov := io, headersSent := true);
      ghost var t := ctx.track[r].(gone := ctx.track[r].gone + n);
      DroppedAnswerOk(s.heap, ctx.rl.rs[r], ctx.track[r], n, s.log, s.off + r);
      SameRefs(s, r, q);
      GoodRefs(s);
      SameBytesSelf(s.heap);
      NobodySendsIdle(s, r);
      SetVector(s, s.heap, r, q, t);
      ctx.Store(r, q, t);
    }
  }

  /** Headers: dropped from the vector once. */
  method SendHeaders(ctx: Context, r: nat, headers: nat) returns (ok: bool)
    requires ctx.Inv() && r < |ctx.rl.rs| && ctx.rl.rs[r].state == Ended
    modifies ctx`track, ctx.rl`rs
    ensures ctx.Inv() && |ctx.rl.rs| == |old(ctx.rl.rs)| == |ctx.track| == |old(ctx.track)|
    ensures ok ==> ctx.rl.rs[r].state == Ended && ctx.rl.rs[r].headersSent
    ensures ok ==> ctx.track == old(ctx.track)[r := ctx.track[r]]
    ensures ok ==> ctx.track[r] == old(ctx.track)[r].(
              gone := old(ctx.track)[r].gone + if old(ctx.rl.rs[r].headersSent) then 0 else headers)
    ensures !ok ==> ctx.rl.rs[r].state == Failed
  {
    hide Good, IsPowerOf2, IovLength;
    GoodSizes(ctx.Now());
    ok := true;
    if !ctx.rl.rs[r].headersSent {
      ok := DropAnswer(ctx, r, headers);
      if !ok {
        NobodySendsIdle(ctx.Now(), r);
        ctx.Fail(r);
      }
    }
  }

  /**
   * fcgi_send_response: `n` bytes were accepted, or the write failed. The bytes are the answer's
   * next ones; when they are the last, the slot is recycled.
   */
  method SendResponse(ctx: Context, r: nat, n: Option<nat>) returns (ghost wire: seq<byte>, finished: bool)
    requires ctx.Inv() && r < |ctx.rl.rs| && ctx.rl.rs[r].state == Ended && ctx.rl.rs[r].headersSent
    requires n.Some? ==> n.value <= IovLength(ctx.rl.rs[r].iov)
    modifies ctx`heap, ctx`track, ctx.rl`rs
    ensures ctx.Inv() && |ctx.rl.rs| == |old(ctx.rl.rs)| == |ctx.track| == |old(ctx.track)|
    ensures old(ctx.track[r].since.Some?) && old(ctx.track[r].since.value) <= |ctx.log|
    ensures var a, gone := old(Answer(ctx.Now(), r)), old(ctx.track[r].gone);
            && gone + |wire| <= |a| && wire == a[gone..gone + |wire|]
            && (finished ==> gone + |wire| == |a| && ctx.rl.rs[r] == Reset(old(ctx.rl.rs[r])))
            && (!finished && ctx.rl.rs[r].state == Ended ==> ctx.track[r].gone == gone + |wire|)
    ensures |wire| == if n.Some? then n.value else 0
  {
    hide Good, IsPowerOf2, IovLength, IovBytes, SameBytes, Stdout, IovOk;
    ghost var s := ctx.Now();
    EndedHolds(s, r);
    wire, finished := [], false;
    NobodySendsIdle(s, r);
    if n.None? {
      ctx.Fail(r);
      return;
    }
    ghost var left := IovBytes(s.heap, s.reqs[r].iov);
    wire := left[..n.value];
    assert wire == Answer(s, r)[s.track[r].gone..s.track[r].gone + n.value];
    var length := Length(ctx.rl.rs[r].iov);
    if n.value == length {
      ctx.Recycle(r);
      finished := true;
      return;
    }
    var ok := DropAnswer(ctx, r, n.value);
    if !ok {
      NobodySendsIdle(ctx.Now(), r);
      ctx.Fail(r);
    }
  }

  // ----- failed requests and hang-ups ---------------------------------------------------------------

  lemma NobodySendsLost(s: Snapshot, r: nat)
    requires Good(s) && r < |s.reqs| && s.reqs[r].fcgiFd == -1
    ensures forall i :: 0 <= i < |s.conns| ==> !SendsTo(s.conns[i], r)
  {
    hide RefsMatch, Holders, ReqsOk, UniqueFds;
    forall i | 0 <= i < |s.conns| ensures !SendsTo(s.conns[i], r) {
      if s.conns[i].state == Sending {
        assert SendingNow(s.heap, s.conns[i], s.reqs, s.track);
        assert s.conns[i].fd != -1;
      }
    }
  }

  /** _mkp_event_write for a client whose request has failed: recycled once no connection has it. */
  method DropFailed(ctx: Context, r: nat)
    requires ctx.Inv() && r < |ctx.rl.rs| && ctx.rl.rs[r].state == Failed
    modifies ctx`heap, ctx`track, ctx.rl`rs
    ensures ctx.Inv() && |ctx.rl.rs| == |old(ctx.rl.rs)|
    ensures ctx.rl.rs == if old(ctx.rl.rs[r].fcgiFd) == -1
        then old(ctx.rl.rs)[r := Reset(old(ctx.rl.rs[r]))] else old(ctx.rl.rs)
  {
    hide Good, IsPowerOf2, SameBytes, SendsTo;
    if ctx.rl.rs[r].fcgiFd == -1 {
      NobodySendsLost(ctx.Now(), r);
      ctx.Recycle(r);
    }
  }

  /** The client of a request is gone while a connection still has it. */
  lemma ClientGoneGood(s: Snapshot, r: nat, q: Request, t: Track)
    requires Good(s) && r < |s.reqs| == |s.track|
    requires q == s.reqs[r].(state := Failed, fd := -1) && t == s.track[r].(gone := 0)
    ensures Good(s.(reqs := s.reqs[r := q], track := s.track[r := t]))
  {
    GoodReq(s, r) by { hide Good, ReqOk; }
    ReqParts(s.heap, s.reqs[r], s.track[r], s.log, s.off + r);
    forall i | 0 <= i < |s.conns| && SendsTo(s.conns[i], r) ensures BeingSent(s.heap, s.conns[i], q, t) {
      SentBy(s, i) by { hide Good; }
      hide Good, HoldsAnswer, IovBytes, IovOk;
      assert s.track[r].gone == 0;
    }
    hide Good, ReqOk, BeingSent;
    FailedOk(s.heap, q, t, s.log, s.off + r);
    SetRequest(s, r, q, t);
  }

  /** What is left of a request whose client has gone: nothing, unless a connection still has it. */
  function ClientGone(q: Request): Request {
    if q.fcgiFd == -1 then Reset(q) else q.(state := Failed, fd := -1)
  }

  /** hangup of a client: its request has failed, and its socket is let go of. */
  method HangupClient(ctx: Context, r: nat)
    requires ctx.Inv() && r < |ctx.rl.rs|
    modifies ctx`heap, ctx`track, ctx.rl`rs
    ensures ctx.Inv() && ctx.rl.rs == old(ctx.rl.rs)[r := ClientGone(old(ctx.rl.rs)[r])]
  {
    hide Good, IsPowerOf2, SameBytes, SendsTo;
    ghost var s := ctx.Now();
    GoodSizes(s);
    var lost := ctx.rl.rs[r].fcgiFd == -1;
    if lost {
      NobodySendsLost(s, r);
      ctx.Recycle(r);
    } else {
      var q := ctx.rl.rs[r].(state := Failed, fd := -1);
      ghost var t := ctx.track[r].(gone := 0);
      ClientGoneGood(s, r, q, t);
      ctx.Store(r, q, t);
    }
  }

  /** fcgi_fd_list_get_by_fd. */
  method FindConnFd(cs: seq<Conn>, fd: int) returns (r: Option<nat>)
    ensures r.Some? ==> r.value < |cs| && cs[r.value].fd == fd
    ensures r.None? ==> forall j :: 0 <= j < |cs| ==> cs[j].fd != fd
  {
    var i := 0;
    while i < |cs|
      invariant 0 <= i <= |cs| && forall j :: 0 <= j < i ==> cs[j].fd != fd
    {
      if cs[i].fd == fd {
        return Some(i);
      }
      i := i + 1;
    }
    r := None;
  }

  lemma OnlyThisOne(rs: seq<Request>, r: nat, fd: int)
    requires UniqueFds(rs) && r < |rs| && rs[r].fd == fd && fd >= 0
    ensures forall k :: 0 <= k < |rs| && k != r ==> rs[k].fd != fd
  {}

  lemma NobodyHas(rs: seq<Request>, fd: int)
    requires FdSlots(rs, fd) == {}
    ensures forall k :: 0 <= k < |rs| ==> rs[k].fd != fd
  {
    forall k | 0 <= k < |rs| ensures rs[k].fd != fd {
      assert k !in FdSlots(rs, fd);
    }
  }

  /** hangup: of a connection, of a client, or of a socket that is neither. */
  method Hangup(ctx: Context, socket: int, sock: int)
    requires ctx.Inv() && socket >= 0 && sock >= -1
    requires forall j :: 0 <= j < |ctx.conns| ==> ctx.conns[j].fd == -1 || ctx.conns[j].fd != sock
    modifies ctx`heap, ctx`track, ctx`conns, ctx.rl`rs, ctx.rl`entries, ctx.rl`hand
    ensures ctx.Inv() && SameSlots(old(ctx.conns), ctx.conns) && |ctx.rl.rs| == |old(ctx.rl.rs)|
    ensures (exists j :: 0 <= j < |old(ctx.conns)| && old(ctx.conns)[j].fd == socket) ==> ctx.rl.rs == old(ctx.rl.rs)
    ensures (forall j :: 0 <= j < |old(ctx.conns)| ==> old(ctx.conns)[j].fd != socket) ==>
              && ctx.conns == old(ctx.conns) && FdSlots(ctx.rl.rs, socket) == {}
              && forall k :: 0 <= k < |ctx.rl.rs| ==>
                   ctx.rl.rs[k] == if old(ctx.rl.rs)[k].fd == socket
                       then ClientGone(old(ctx.rl.rs)[k]) else old(ctx.rl.rs)[k]
  {
    hide Good, IsPowerOf2;
    var i := FindConnFd(ctx.conns, socket);
    if i.Some? {
      GoodFreed(ctx.Now(), i.value);
      HangupConn(ctx, i.value, sock);
      return;
    }
    GoodSizes(ctx.Now());
    var r := ctx.rl.GetByFd(socket);
    if r.Some? {
      assert r.value in FdSlots(ctx.rl.rs, socket);
      OnlyThisOne(ctx.rl.rs, r.value, socket);
      HangupClient(ctx, r.value);
    } else {
      NobodyHas(ctx.rl.rs, socket);
    }
  }

  /**
   * _mkp_event_read, with the close that follows a failed call or the end of the stream: the
   * records are handled, and a connection that has ended is let go of. The model ends with a call
   * that reads a freed chunk.
   */
  method EventRead(ctx: Context, i: nat, socket: Receive.Socket, sock: int)
    returns (open: bool, wild: bool, ghost received: seq<byte>)
    requires ctx.Inv() && socket.Valid() && i < |ctx.conns| && ctx.conns[i].state != Free && sock >= -1
    requires forall j :: 0 <= j < |ctx.conns| ==> ctx.conns[j].fd == -1 || ctx.conns[j].fd != sock
    requires Receive.TimelyAll(ctx.Now(), i,
               Packets(Receive.KeptAtCall(ctx.heap, ctx.conns[i], socket.HasData()) + Receive.ToCome(socket.script)))
    modifies ctx`heap, ctx`nextId, ctx`track, ctx`log, ctx`conns, ctx.rl`rs, ctx.rl`entries, ctx.rl`hand, socket
    ensures ctx.Inv() && SameSlots(old(ctx.conns), ctx.conns)
    ensures Receive.WildOnlyIf(old(ctx.heap), old(ctx.conns[i]), old(socket.script), wild)
    ensures open ==> !wild && ctx.conns[i].state != Free && ctx.conns[i].state != Closing
    ensures !open && !wild && MayTurn(old(ctx.conns[i].state), Closing) ==> LetGo(old(ctx.conns), ctx.conns, i, sock)
    ensures socket.taken == old(socket.taken) + received
    ensures var stream := old(Receive.KeptAtCall(ctx.heap, ctx.conns[i], socket.HasData())) + received;
            && old(ctx.log) <= ctx.log <= old(ctx.log) + Packets(stream)
            && (open ==> ctx.log == old(ctx.log) + Packets(stream))
  {
    hide Good, IsPowerOf2, Packets, Receive.TimelyAll, Receive.ToCome, Receive.Unread, Receive.Room, Receive.Completed,
      Receive.BrokeOff, StaysTimely, FreedAt, Receive.KeptAtCall, Receive.LeftUnread, Receive.FirstRoom, Opens,
      Receive.WildOnlyIf, Receive.Snug, Receive.AllData, Receive.FitsIn;
    ghost var kept, log := Receive.KeptAtCall(ctx.heap, ctx.conns[i], socket.HasData()), ctx.log;
    ghost var stale := Receive.ParsesOld(ctx.heap, ctx.conns[i], socket.HasData());
    var ok; ghost var first, k;
    ok, wild, first, received, k := Receive.RecvResponse(ctx, i, socket);
    open := ok && ctx.conns[i].state != Closing;
    if wild {
      assert kept + received == kept;
      return;
    }
    RecordsLogged(stale, log, ctx.log, ok, ctx.rl.idOffset, |ctx.rl.rs|, kept, first, received, k,
                  Receive.Unread(ctx.heap, ctx.conns[i]));
    if !open {
      ghost var cs, c := ctx.conns, ctx.conns[i];
      HangupConn(ctx, i, sock);
      assert cs[i := c.(fd := -1, state := Free)]
          == old(ctx.conns)[i := old(ctx.conns[i]).(fd := -1, state := Free, chunk := c.chunk)];
    }
  }

  /** A ready or receiving connection that failed: its slot is freed and a replacement is opened. */
  ghost predicate LetGo(cs: seq<Conn>, cs': seq<Conn>, i: nat, sock: int)
    requires i < |cs|
  {
    exists chunk :: Opens(cs[i := cs[i].(fd := -1, state := Free, chunk := chunk)], cs', cs[i].locationId, sock)
  }

  lemma RecordsLogged(stale: bool, log: seq<Packet>, log': seq<Packet>, ok: bool, off: nat, n: nat, kept: seq<byte>,
                      first: seq<byte>, received: seq<byte>, k: nat, unread: seq<byte>)
    requires ok ==> Receive.Completed(log, log', off, n, kept + received)
    requires !ok ==> Receive.BrokeOff(stale, log, log', off, n, kept, first, received, k, unread)
    ensures log <= log' <= log + Packets(kept + received) && (ok ==> log' == log + Packets(kept + received))
  {
    if !ok {
      Receive.BrokeOffLogs(stale, log, log', off, n, kept, first, received, k, unread);
    }
  }

  function Sum(ns: seq<nat>): nat { if ns == [] then 0 else ns[0] + Sum(ns[1..]) }

  /**
   * Any sequence of partial writes that adds up to the request: what went over the wire is exactly
   * what was left of it, and the connection receives.
   */
  method SendAll(ctx: Context, i: nat, writes: seq<nat>) returns (ghost wire: seq<byte>)
    requires ctx.Inv() && i < |ctx.conns| && ctx.conns[i].state == Sending
    requires writes != [] && (forall k :: 0 <= k < |writes| ==> writes[k] > 0) && Sum(writes) == ctx.conns[i].remain
    requires ctx.conns[i].beginReq.Some? && ctx.conns[i].beginReq.value < |ctx.track|
    modifies ctx`heap, ctx`track, ctx`conns, ctx.rl`rs
    ensures ctx.Inv() && |ctx.conns| == |old(ctx.conns)| && ctx.conns[i].state == Receiving
    ensures old(ctx.track[ctx.conns[i].beginReq.value].out) + wire == old(ctx.track[ctx.conns[i].beginReq.value].whole)
    decreases |writes|
  {
    hide Good, IsPowerOf2, SameSlots;
    NotLast(writes);
    var first := SendPart(ctx, i, writes[0]);
    wire := first;
    SlotsSize(old(ctx.conns), ctx.conns);
    if |writes| > 1 {
      GoodSizes(ctx.Now());
      SentBy(ctx.Now(), i);
      var rest := SendAll(ctx, i, writes[1..]);
      wire := first + rest;
    }
  }

  lemma NotLast(writes: seq<nat>)
    requires writes != [] && forall k :: 0 <= k < |writes| ==> writes[k] > 0
    ensures Sum(writes) == writes[0] + Sum(writes[1..])
    ensures writes[0] == Sum(writes) <==> |writes| == 1
  {
    if |writes| > 1 {
      assert Sum(writes[1..]) >= writes[1..][0];
    }
  }

  lemma SlotsSize(cs: seq<Conn>, cs': seq<Conn>)
    requires SameSlots(cs, cs')
    ensures |cs'| == |cs|
  {}
}
