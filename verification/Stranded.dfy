/** A server that hangs up before it has answered. */
module Stranded {
  import opened Bytes
  import opened Protocol
  import opened Records
  import opened Chunks
  import opened Requests
  import opened World
  import opened Fastcgi
  import opened Ring
  import Handlers
  import Prepare
  import Reconnect
  import Answers

  /**
    * For every worker: when the connection that has a request hangs up, the request stays as it is,
    * with its client asleep if it slept, and no connection has it any more.
    */
  method Strands(ctx: Context, i: nat, r: nat)
    requires ctx.Inv() && i < |ctx.conns| && ctx.conns[i].state != Free && ctx.conns[i].state != Closing
    requires r < |ctx.rl.rs| && ctx.rl.rs[r].fcgiFd == ctx.conns[i].fd
    modifies ctx`conns
    ensures ctx.Inv() && |ctx.conns| == |old(ctx.conns)|
    ensures forall j :: 0 <= j < |ctx.conns| ==> ctx.conns[j].fd != ctx.rl.rs[r].fcgiFd
  {
    hide Good, IsPowerOf2;
    GoodFreed(ctx.Now(), i);
    OneSocketEach(ctx.Now(), i);
    Handlers.HangupConn(ctx, i, -1);
  }

  lemma OneSocketEach(s: Snapshot, i: nat)
    requires Good(s) && i < |s.conns| && s.conns[i].state != Free
    ensures s.conns[i].fd >= 0 && forall j :: 0 <= j < |s.conns| && j != i ==> s.conns[j].fd != s.conns[i].fd
  {
    hide RefsMatch, Holders, SendingOk, ReqsOk, UniqueFds;
  }

  /** A client that hangs up leaves its slot free or to the connection that has the request. */
  lemma GoneIsOwned(q: Request)
    ensures Answers.Owned(Handlers.ClientGone(q)) && Handlers.ClientGone(q).fd == -1
    ensures Handlers.ClientGone(q).state == Available <==> q.fcgiFd == -1
  {}

  /** Client 7 asleep, its request sent whole on the one connection. */
  method Waiting() returns (ctx: Context)
    ensures fresh(ctx) && fresh(ctx.rl) && ctx.Inv() && |ctx.rl.rs| == 2
    ensures ctx.conns == [Conn(Receiving, 5, 0, 0, 0, None, None)]
    ensures var q := ctx.rl.rs[1]; q.state == Sent && q.sleeping && q.fd == 7 && q.fcgiFd == 5
  {
    hide Good, IsPowerOf2;
    Reconnect.TwoIsPower();
    ctx := new Context([Conn(Free, -1, 0, 0, 0, None, None)], 1, 0, 2);
    TakeClient(ctx);
    ghost var rs := ctx.rl.rs;
    assert 1 in AssignedSlots(rs, 0) && 0 !in AssignedSlots(rs, 0);
    var r, ok := Handlers.StartSend(ctx, 0, true);
    assert r == Some(1);
    ghost var wire := Handlers.SendPart(ctx, 0, ctx.conns[0].remain);
  }

  method TakeClient(ctx: Context)
    requires ctx.Inv() && |ctx.rl.rs| == 2 && |ctx.rl.hands| == 1 && ctx.rl.hands[0] == 0 && ctx.rl.idOffset == 0
    requires ctx.rl.rs[0] == NEW_REQUEST && ctx.rl.rs[1] == NEW_REQUEST
    requires ctx.conns == [Conn(Free, -1, 0, 0, 0, None, None)]
    modifies ctx`track, ctx`conns, ctx.rl`rs, ctx.rl`entries, ctx.rl`hand
    ensures ctx.Inv() && |ctx.rl.rs| == 2 && ctx.rl.rs[0].state == Available
    ensures ctx.rl.rs[1].state == Assigned && ctx.rl.rs[1].clockId == 0 && ctx.rl.rs[1].sleeping && ctx.rl.rs[1].fd == 7
    ensures ctx.conns == [Conn(Ready, 5, 0, 0, 0, None, None)]
  {
    hide Good, IsPowerOf2, Prepare.IsRequest, Handlers.Preparable, FirstFrom;
    ghost var rs := ctx.rl.rs;
    assert FdSlots(rs, 7) == {};
    assert 0 in AvailableSlots(rs);
    var t := Handlers.Assign(ctx, 7, 0, true, []);
    Reconnect.SlotOneFirst(rs, t.r);
    Reconnect.EmptyEnvironmentFits();
    assert Handlers.Suits(ctx.conns[0], {Free}, 0);
    var _ := Handlers.NewConnection(ctx, 0, 5);
    Handlers.Sleep(ctx, 1);
  }

  /** The server hangs up: client 7 sleeps on a request that no connection has. */
  method StrandedExample() returns (ctx: Context)
    ensures fresh(ctx) && fresh(ctx.rl) && ctx.Inv() && |ctx.rl.rs| == 2
    ensures ctx.conns == [Conn(Free, -1, 0, 0, 0, None, None)]
    ensures var q := ctx.rl.rs[1]; q.state == Sent && q.sleeping && q.fd == 7 && q.fcgiFd == 5
  {
    hide Good, IsPowerOf2;
    ctx := Waiting();
    GoodFreed(ctx.Now(), 0);
    Handlers.HangupConn(ctx, 0, -1);
  }

  /** Then the client hangs up too: the slot is lost. */
  method LostSlotExample() returns (ctx: Context)
    ensures |ctx.rl.rs| == 2 && Answers.Lost(ctx.rl.rs[1]) && ctx.conns == [Conn(Free, -1, 0, 0, 0, None, None)]
  {
    hide Good, IsPowerOf2;
    ctx := StrandedExample();
    Handlers.HangupClient(ctx, 1);
  }
}
