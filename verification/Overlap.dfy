/** An answer that ends before its request has gone whole. */
module Overlap {
  import opened Bytes
  import opened Protocol
  import opened Records
  import opened Chunks
  import opened Requests
  import opened World
  import opened Fastcgi
  import opened Ring
  import Handlers
  import Prepare
  import Reconnect

  const FREE := Conn(Free, -1, 0, 0, 0, None, None)

  lemma FourIsPower()
    ensures IsPowerOf2(4)
  {
    assert And(1, 0) == 0;
    assert And(2, 1) == 0;
    assert And(4, 3) == 0;
  }

  /** With the hand on slot 0 of four, the slots come in the order 1, 2, 3, 0. */
  lemma InOrder(good: set<nat>, hand: nat, r: nat, want: nat)
    requires hand <= 1 && FirstFrom(hand, 4, r, good) && want in good && 1 <= want <= 2
    requires hand == 0 && want == 2 ==> 1 !in good
    requires hand == 1 ==> want == 2
    ensures r == want
  {
    assert Distance(0, 0, 4) == 4 && Distance(0, 1, 4) == 1 && Distance(0, 2, 4) == 2 && Distance(0, 3, 4) == 3;
    assert Distance(1, 0, 4) == 3 && Distance(1, 1, 4) == 4 && Distance(1, 2, 4) == 1 && Distance(1, 3, 4) == 2;
  }

  /** Client `fd` gets slot `want`, which is the next one available. */
  method AssignTo(ctx: Context, fd: int, want: nat)
    requires ctx.Inv() && |ctx.rl.rs| == 4 && |ctx.rl.hands| == 1 && ctx.rl.hands[0] == 0 && ctx.rl.idOffset == 0
    requires fd >= 0 && 1 <= want <= 2 && ctx.rl.rs[want].state == Available
    requires want == 2 ==> ctx.rl.rs[1].state != Available
    requires forall k :: 0 <= k < 4 ==> ctx.rl.rs[k].fd != fd
    modifies ctx`track, ctx.rl`rs, ctx.rl`entries, ctx.rl`hand
    ensures ctx.Inv() && |ctx.rl.rs| == 4 && ctx.rl.rs == old(ctx.rl.rs)[want := ctx.rl.rs[want]]
    ensures ctx.rl.rs[want].state == Assigned && ctx.rl.rs[want].clockId == 0 && ctx.rl.rs[want].fd == fd
    ensures IovLength(ctx.rl.rs[want].iov) >= HEADER_LEN
  {
    hide Good, IsPowerOf2, Prepare.IsRequest, Handlers.Preparable, FirstFrom;
    ghost var rs := ctx.rl.rs;
    assert FdSlots(rs, fd) == {};
    assert want in AvailableSlots(rs);
    var t := Handlers.Assign(ctx, fd, 0, true, []);
    InOrder(AvailableSlots(rs), 0, t.r, want);
    EmptyFits(want);
    RequestLong(ctx.track[want].whole, want);
    AssignedLength(ctx.Now(), want);
  }

  lemma AssignedLength(s: Snapshot, r: nat)
    requires Good(s) && r < |s.reqs| == |s.track| && s.reqs[r].state == Assigned
    ensures IovLength(s.reqs[r].iov) == |s.track[r].whole|
  {
    GoodReq(s, r) by { hide Good, ReqOk; }
    hide Good, HoldsAnswer;
  }

  lemma EmptyFits(id: nat)
    requires 1 <= id <= 2
    ensures Handlers.Preparable(Handlers.WireId(0, id), [])
  {
    assert Prepare.Sent([]) == [];
  }

  lemma RequestLong(b: seq<byte>, id: nat)
    requires 1 <= id <= 2
    ensures Prepare.IsRequest(b, Handlers.WireId(0, id), true, Prepare.Sent([])) ==> |b| >= HEADER_LEN
  {}

  /** Two requests and two open connections. */
  method TwoRequests() returns (ctx: Context)
    ensures fresh(ctx) && fresh(ctx.rl) && ctx.Inv() && |ctx.rl.rs| == 4 && |ctx.rl.hands| == 1 && ctx.rl.hands[0] == 0
    ensures ctx.conns == [FREE.(state := Ready, fd := 5), FREE.(state := Ready, fd := 6)]
    ensures ctx.rl.rs[1].state == Assigned && ctx.rl.rs[1].clockId == 0 && ctx.rl.rs[1].fd == 7
    ensures ctx.rl.rs[2].state == Assigned && ctx.rl.rs[2].clockId == 0
    ensures IovLength(ctx.rl.rs[1].iov) >= HEADER_LEN
  {
    hide Good, IsPowerOf2, IovLength;
    FourIsPower();
    ctx := new Context([FREE, FREE], 1, 0, 4);
    AssignTo(ctx, 7, 1);
    AssignTo(ctx, 8, 2);
    Connect(ctx);
  }

  method Connect(ctx: Context)
    requires ctx.Inv() && ctx.conns == [FREE, FREE]
    modifies ctx`conns
    ensures ctx.Inv() && ctx.conns == [FREE.(state := Ready, fd := 5), FREE.(state := Ready, fd := 6)]
  {
    hide Good, IsPowerOf2;
    assert Handlers.Suits(ctx.conns[0], {Free}, 0);
    var _ := Handlers.NewConnection(ctx, 0, 5);
    assert Handlers.Suits(ctx.conns[1], {Free}, 0);
    var _ := Handlers.NewConnection(ctx, 0, 6);
  }

  /** One byte of request 1 has gone on connection 0, and all of request 2 on connection 1. */
  method PartlySent() returns (ctx: Context)
    ensures fresh(ctx) && fresh(ctx.rl) && ctx.Inv() && |ctx.rl.rs| == 4 == |ctx.track| && |ctx.conns| == 2
    ensures SendsTo(ctx.conns[0], 1) && ctx.conns[1].state == Receiving
    ensures ctx.rl.rs[1].state == Sent && ctx.rl.rs[1].fd == 7 && |ctx.track[1].out| == 1
  {
    hide Good, IsPowerOf2, IovLength;
    ctx := TwoRequests();
    ghost var rs := ctx.rl.rs;
    assert 1 in AssignedSlots(rs, 0);
    Handlers.GoodSizes(ctx.Now());
    NothingOut(ctx.Now(), 1);
    var r, ok := Handlers.StartSend(ctx, 0, true);
    InOrder(AssignedSlots(rs, 0), 0, r.value, 1);
    ghost var wire := Handlers.SendPart(ctx, 0, 1);
    SendSecond(ctx);
  }

  /** All of request 2 goes on connection 1. */
  method SendSecond(ctx: Context)
    requires ctx.Inv() && |ctx.rl.rs| == 4 == |ctx.track| && |ctx.conns| == 2 && ctx.conns[1].state == Ready
    requires ctx.conns[1].locationId == 0 && ctx.rl.rs[1].state == Sent
    requires ctx.rl.rs[2].state == Assigned && ctx.rl.rs[2].clockId == 0
    modifies ctx`heap, ctx`track, ctx`conns, ctx.rl`rs, ctx.rl`entries, ctx.rl`hand, ctx.rl`hands
    ensures ctx.Inv() && |ctx.rl.rs| == 4 == |ctx.track| && |ctx.conns| == 2 && ctx.conns[1].state == Receiving
    ensures ctx.conns[0] == old(ctx.conns[0]) && ctx.rl.rs[1] == old(ctx.rl.rs[1]) && ctx.track[1] == old(ctx.track[1])
  {
    hide Good, IsPowerOf2, IovLength;
    ghost var rs := ctx.rl.rs;
    assert 2 in AssignedSlots(rs, 0) && 1 !in AssignedSlots(rs, 0);
    var r, ok := Handlers.StartSend(ctx, 1, true);
    assert r.value in AssignedSlots(rs, 0);
    ghost var wire := Handlers.SendPart(ctx, 1, ctx.conns[1].remain);
    Handlers.GoodSizes(ctx.Now());
  }

  lemma NothingOut(s: Snapshot, r: nat)
    requires Good(s) && r < |s.reqs| == |s.track| && s.reqs[r].state == Assigned
    ensures s.track[r].out == []
  {
    GoodReq(s, r) by { hide Good, ReqOk; }
    hide Good, HoldsAnswer;
  }

  /**
    * The server of connection 1 sends an END_REQUEST for request 1, of which one byte has gone on
    * connection 0: the request is ended, its vector is the rest of the request, connection 0 still
    * sends it, and the worker is no longer in order.
    */
  method EndTooSoonExample() returns (ctx: Context)
    ensures |ctx.rl.rs| == 4 == |ctx.track| && |ctx.conns| == 2 && SendsTo(ctx.conns[0], 1)
    ensures ctx.rl.rs[1].state == Ended && ctx.rl.rs[1].fd == 7 && |ctx.track[1].out| == 1
    ensures IovOk(ctx.heap, ctx.rl.rs[1].iov)
    ensures ctx.track[1].out + IovBytes(ctx.heap, ctx.rl.rs[1].iov) == ctx.track[1].whole && !ctx.Inv()
  {
    hide Good, IsPowerOf2, IovBytes, IovOk, RefsMatch, Holders, ReadHeader, SameBytes;
    ctx := PartlySent();
    var p := Reconnect.Record(END_REQUEST, 1, [0, 0, 0, 0, 0, 0, 0, 0]);
    ghost var s := ctx.Now();
    GoodRefs(s);
    EndedTooSoon(s, 1, 0, 1, p, s.heap);
    var ok := ctx.EndRecord(1, p, 1);
    EndKeepsIff(s, 1, 1, p, ctx.heap);
  }
}
