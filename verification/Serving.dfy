/** The worker's queues carry out the protocol's steps. */
module Serving {
  import opened Bytes
  import opened List
  import Q = Queues
  import A = Acceptor

  ghost function Sockets(s: Links, conns: map<Link, Q.Conn>): (r: seq<int>)
    requires All(s) <= conns.Keys
    ensures |r| == |s|
    decreases |s|
  {
    if s == [] then []
    else
      assert s[0] in All(s) && All(s[1..]) <= All(s);
      [conns[s[0]].socket] + Sockets(s[1..], conns)
  }

  lemma {:induction false} SocketsAt(s: Links, conns: map<Link, Q.Conn>, i: nat)
    requires All(s) <= conns.Keys && i < |s|
    ensures s[i] in conns && Sockets(s, conns)[i] == conns[s[i]].socket
    decreases |s|
  {
    assert s[0] in All(s) && All(s[1..]) <= All(s);
    if i > 0 { SocketsAt(s[1..], conns, i - 1); }
  }

  /** The lists of a worker between two of its calls are a ready worker of the protocol. */
  ghost predicate Shows(b: Q.Books, w: A.Worker) {
    && Q.Kept(b) && w.phase.Ready? && All(b.busy) <= b.conns.Keys
    && Sockets(b.busy, b.conns) == w.busy && |b.av| == w.free && b.closed == w.closed
  }

  lemma ServedIsBusy(b: Q.Books, w: A.Worker, fd: int)
    requires Shows(b, w)
    ensures fd in w.busy <==> exists x :: Q.Serves(b, x, fd)
  {
    hide Q.Kept;
    if fd in w.busy {
      var i :| 0 <= i < |w.busy| && w.busy[i] == fd;
      SocketsAt(b.busy, b.conns, i);
      assert Q.Serves(b, b.busy[i], fd);
    }
    if x :| Q.Serves(b, x, fd) {
      var i :| 0 <= i < |b.busy| && b.busy[i] == x;
      SocketsAt(b.busy, b.conns, i);
      assert w.busy[i] == fd;
    }
  }

  /** Wherever a run can get to, a client that may be registered finds a free slot and no double. */
  lemma RegisterFindsRoom(n: nat, run: seq<A.Event>, capacity: nat, i: nat, fd: int, b: Q.Books)
    requires 0 < n && 0 < capacity < TWO32 && A.IsRun(A.Start(n, capacity), run, capacity)
    requires A.Enabled(A.Reached(A.Start(n, capacity), run, capacity), A.Register(i, fd))
    requires Shows(b, A.Reached(A.Start(n, capacity), run, capacity).workers[i])
    ensures |b.av| > 0 && forall x :: !Q.Serves(b, x, fd)
  {
    A.StartOk(n, capacity);
    A.RunKeeps(A.Start(n, capacity), run, capacity);
    var s := A.Reached(A.Start(n, capacity), run, capacity);
    A.InvSafe(s, capacity);
    ServedIsBusy(b, s.workers[i], fd);
  }

  lemma {:induction false} SocketsAppend(s: Links, t: Links, conns: map<Link, Q.Conn>)
    requires All(s) <= conns.Keys && All(t) <= conns.Keys
    ensures All(s + t) <= conns.Keys && Sockets(s + t, conns) == Sockets(s, conns) + Sockets(t, conns)
    decreases |s|
  {
    AllAppend(s, t);
    if s == [] {
      assert s + t == t;
    } else {
      assert All(s[1..]) <= All(s);
      SocketsAppend(s[1..], t, conns);
      assert (s + t)[1..] == s[1..] + t;
    }
  }

  lemma {:induction false} SocketsElsewhere(s: Links, conns: map<Link, Q.Conn>, x: Link, c: Q.Conn)
    requires All(s) <= conns.Keys && x !in s
    ensures All(s) <= conns[x := c].Keys && Sockets(s, conns[x := c]) == Sockets(s, conns)
    decreases |s|
  {
    if s != [] {
      assert s[0] in All(s) && All(s[1..]) <= All(s) && x !in s[1..] && s[0] != x;
      SocketsElsewhere(s[1..], conns, x, c);
    }
  }

  /** Registering on the lists is the protocol's registering. */
  lemma RegisterRefines(b: Q.Books, w: A.Worker, i: nat, fd: int, now: int)
    requires Shows(b, w) && |b.av| > 0 && forall x :: !Q.Serves(b, x, fd)
    ensures Shows(Q.Taken(b, fd, now), A.WorkerStep(w, A.Register(i, fd)))
  {
    Q.TakenKept(b, fd, now);
    var t, x := Q.Taken(b, fd, now), b.av[0];
    assert x in All(b.av) && x !in All(b.busy) && x !in b.busy;
    SocketsElsewhere(b.busy, b.conns, x, Q.Conn(fd, Q.PENDING, now));
    SocketsAppend(b.busy, [x], t.conns);
    assert Sockets([x], t.conns) == [fd];
  }

  /** Dropping the only slot of a socket takes that socket off the queue. */
  lemma {:induction false} SocketsWithout(s: Links, conns: map<Link, Q.Conn>, k: nat)
    requires All(s) <= conns.Keys && k < |s| && s[k] in conns
    requires forall j :: 0 <= j < |s| && j != k && s[j] in conns ==> conns[s[j]].socket != conns[s[k]].socket
    ensures All(Without(s, k)) <= conns.Keys
    ensures Sockets(Without(s, k), conns) == A.Unqueue(Sockets(s, conns), conns[s[k]].socket)
    decreases |s|
  {
    var rest, q := s[1..], Sockets(s, conns);
    assert s[0] in All(s) && All(rest) <= All(s);
    assert q[1..] == Sockets(rest, conns);
    if k == 0 {
      assert Without(s, 0) == rest;
    } else {
      assert Without(s, k) == [s[0]] + Without(rest, k - 1);
      assert conns[s[0]].socket != conns[s[k]].socket;
      forall j | 0 <= j < |rest| && j != k - 1 && rest[j] in conns
          ensures conns[rest[j]].socket != conns[rest[k - 1]].socket {
        assert rest[j] == s[j + 1];
      }
      SocketsWithout(rest, conns, k - 1);
      AllAppend([s[0]], Without(rest, k - 1));
      assert ([s[0]] + Without(rest, k - 1))[1..] == Without(rest, k - 1);
    }
  }

  /** The three moves of a removal, one after another. */
  function RemoveSteps(w: A.Worker, i: nat, fd: int): A.Worker {
    A.WorkerStep(A.WorkerStep(A.WorkerStep(w, A.CloseSocket(i, fd)), A.CountClosed(i)), A.Relink(i))
  }

  /** Removing on the lists is the protocol's removal. */
  lemma RemoveRefines(b: Q.Books, w: A.Worker, i: nat, fd: int, x: Link)
    requires Shows(b, w) && Q.Serves(b, x, fd)
    ensures Shows(Q.Dropped(b, x), RemoveSteps(w, i, fd))
  {
    hide Q.Kept, Sockets, Q.Minus;
    Q.DroppedKept(b, x);
    SocketsDropped(b, x, fd);
  }

  lemma SocketsDropped(b: Q.Books, x: Link, fd: int)
    requires Q.Kept(b) && Q.Serves(b, x, fd) && All(b.busy) <= b.conns.Keys
    ensures All(Q.Dropped(b, x).busy) <= Q.Dropped(b, x).conns.Keys
    ensures Sockets(Q.Dropped(b, x).busy, Q.Dropped(b, x).conns) == A.Unqueue(Sockets(b.busy, b.conns), fd)
  {
    hide Sockets, Q.Minus, Q.OneEach, Q.Clean;
    var k :| 0 <= k < |b.busy| && b.busy[k] == x;
    Q.WithoutIsMinus(b.busy, k);
    OthersDiffer(b, k);
    SocketsWithout(b.busy, b.conns, k);
    WithoutDistinct(b.busy, k);
    SocketsElsewhere(Without(b.busy, k), b.conns, x, Q.Freed(b.conns[x]));
  }

  lemma OthersDiffer(b: Q.Books, k: nat)
    requires Q.Kept(b) && k < |b.busy| && b.busy[k] in b.conns
    ensures forall j :: 0 <= j < |b.busy| && j != k && b.busy[j] in b.conns ==>
        b.conns[b.busy[j]].socket != b.conns[b.busy[k]].socket
  {
    forall j | 0 <= j < |b.busy| && j != k && b.busy[j] in b.conns
        ensures b.conns[b.busy[j]].socket != b.conns[b.busy[k]].socket {
      assert b.busy[j] in b.busy && b.busy[k] in b.busy && b.busy[j] != b.busy[k];
    }
  }

  // ----- every run, on the lists ----------------------------------------------------------------------

  /** The lists of a worker at any moment; a removal under way has not reached them yet. */
  ghost predicate Shadows(b: Q.Books, w: A.Worker) {
    match w.phase
    case Ready => Shows(b, w)
    case Closing(fd) => fd in w.busy && Shows(b, w.(phase := A.Ready))
    case Counted(fd) => fd in w.busy && w.closed > 0 && Shows(b, w.(phase := A.Ready, closed := w.closed - 1))
  }

  ghost predicate AllShadow(bs: seq<Q.Books>, s: A.System) {
    |bs| == |s.workers| && forall i :: 0 <= i < |bs| ==> Shadows(bs[i], s.workers[i])
  }

  /** What the constructor of a worker's lists leaves. */
  ghost predicate New(b: Q.Books, capacity: nat) {
    Q.Kept(b) && b.busy == [] && |b.av| == capacity && b.closed == 0
  }

  /** What the accepting thread changes does not concern the lists. */
  lemma ShadowsStill(b: Q.Books, w: A.Worker, v: A.Worker)
    requires Shadows(b, w) && v == w.(accepted := v.accepted, pending := v.pending, lost := v.lost)
    ensures Shadows(b, v)
  {
    hide Q.Kept, Sockets;
  }

  lemma RegisterRoom(s: A.System, capacity: nat, i: nat, fd: int, b: Q.Books)
    requires A.Inv(s, capacity) && capacity < TWO32 && A.Enabled(s, A.Register(i, fd)) && Shadows(b, s.workers[i])
    ensures |b.av| > 0 && forall x :: !Q.Serves(b, x, fd)
  {
    A.InvSafe(s, capacity);
    ServedIsBusy(b, s.workers[i], fd);
  }

  /** One worker's step, on its lists. */
  lemma WorkerSimulated(s: A.System, e: A.Event, capacity: nat, b: Q.Books) returns (b': Q.Books)
    requires A.Inv(s, capacity) && capacity < TWO32 && A.IsWorkerEvent(e) && A.Enabled(s, e)
    requires Shadows(b, s.workers[e.w])
    ensures Shadows(b', A.WorkerStep(s.workers[e.w], e))
  {
    hide Q.Kept, Sockets, A.Inv;
    var w := s.workers[e.w];
    b' := b;
    if e.Register? {
      RegisterRoom(s, capacity, e.w, e.fd, b);
      RegisterRefines(b, w, e.w, e.fd, 0);
      b' := Q.Taken(b, e.fd, 0);
    } else if e.Reject? {
      ShadowsStill(b, w, A.WorkerStep(w, e));
    } else if e.Relink? {
      var before, fd := w.(phase := A.Ready, closed := w.closed - 1), w.phase.fd;
      ServedIsBusy(b, before, fd);
      var x :| Q.Serves(b, x, fd);
      RemoveRefines(b, before, e.w, fd, x);
      b' := Q.Dropped(b, x);
    }
  }

  lemma StepSimulated(s: A.System, e: A.Event, capacity: nat, bs: seq<Q.Books>) returns (bs': seq<Q.Books>)
    requires A.Inv(s, capacity) && capacity < TWO32 && A.Enabled(s, e) && AllShadow(bs, s)
    ensures AllShadow(bs', A.Do(s, e, capacity))
  {
    hide A.Inv, Shadows, A.WorkerStep;
    bs' := bs;
    if A.IsWorkerEvent(e) {
      var b := WorkerSimulated(s, e, capacity, bs[e.w]);
      bs' := bs[e.w := b];
    } else if e.EpollAdd? || e.Count? {
      var t, s' := s.acceptor.target, A.Do(s, e, capacity);
      ShadowsStill(bs[t], s.workers[t], s'.workers[t]);
    }
  }

  lemma {:induction false} RunSimulated(s: A.System, run: seq<A.Event>, capacity: nat, bs: seq<Q.Books>)
    returns (bs': seq<Q.Books>)
    requires A.Inv(s, capacity) && 0 < capacity < TWO32 && A.IsRun(s, run, capacity) && AllShadow(bs, s)
    ensures AllShadow(bs', A.Reached(s, run, capacity))
    decreases |run|
  {
    hide A.Inv, AllShadow;
    bs' := bs;
    if run != [] {
      A.StepKeeps(s, run[0], capacity);
      var next := StepSimulated(s, run[0], capacity, bs);
      bs' := RunSimulated(A.Do(s, run[0], capacity), run[1..], capacity, next);
    }
  }

  /**
    * Every run, with the acceptor's and the workers' moves interleaved in any way, is carried out
    * by lists that start as the constructor leaves them; each registration finds a free slot on
    * them and no slot that serves the socket already.
    */
  lemma ListsFollow(n: nat, run: seq<A.Event>, capacity: nat, start: seq<Q.Books>) returns (bs: seq<Q.Books>)
    requires 0 < capacity < TWO32 && A.IsRun(A.Start(n, capacity), run, capacity)
    requires |start| == n && forall i :: 0 <= i < n ==> New(start[i], capacity)
    ensures var s := A.Reached(A.Start(n, capacity), run, capacity);
            && AllShadow(bs, s)
            && forall i: nat, fd :: A.Enabled(s, A.Register(i, fd)) ==> HasRoom(bs, i, fd)
  {
    var s0 := A.Start(n, capacity);
    A.StartOk(n, capacity);
    A.RunKeeps(s0, run, capacity);
    assert AllShadow(start, s0);
    bs := RunSimulated(s0, run, capacity, start);
    var s := A.Reached(s0, run, capacity);
    hide A.Inv;
    forall i: nat, fd | A.Enabled(s, A.Register(i, fd)) ensures HasRoom(bs, i, fd) {
      RegisterRoom(s, capacity, i, fd, bs[i]);
    }
  }

  ghost predicate HasRoom(bs: seq<Q.Books>, i: nat, fd: int) {
    i < |bs| && |bs[i].av| > 0 && forall x :: x in bs[i].busy ==> !Q.Serves(bs[i], x, fd)
  }
}
