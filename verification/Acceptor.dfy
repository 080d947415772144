/** The protocol between the thread that accepts clients and the workers that serve them. */
module Acceptor {
  import opened Bytes

  /** A worker removes a client in three moves: it closes the socket, counts, relinks the slot. */
  datatype Phase = Ready | Closing(fd: int) | Counted(fd: int)

  /**
    * One worker as both threads see it. `free` counts the available slots; taking one
    * from an empty queue makes it negative. `pending` are the descriptors in its epoll
    * set that it has not registered; `lost` counts those it dropped unregistered.
    */
  datatype Worker = Worker(accepted: nat, closed: nat, busy: seq<int>, free: int, phase: Phase,
                           pending: multiset<int>, lost: nat)

  /** Where the accepting thread is; `seen` are the loads read so far, in worker order. */
  datatype Acceptor =
    | Idle
    | Scanning(fd: int, target: nat, cur: int, seen: seq<int>)
    | Chosen(fd: int, target: nat)
    | Added(fd: int, target: nat)

  datatype System = System(workers: seq<Worker>, acceptor: Acceptor)

  /** `accepted - closed` in an `unsigned long long`. */
  function Reading(w: Worker): int { (w.accepted - w.closed) % TWO64 }

  /** The scan stops after the last worker, or at the first idle one. */
  predicate ScanOver(a: Acceptor, n: nat) {
    a.Scanning? && |a.seen| > 0 && (|a.seen| >= n || a.cur == 0)
  }

  datatype Event =
    | Accept(fd: int)
    | Look
    | Decide
    | EpollAdd(ok: bool)
    | Count
    | Register(w: nat, fd: int)
    | Reject(w: nat, fd: int)
    | CloseSocket(w: nat, fd: int)
    | CountClosed(w: nat)
    | Relink(w: nat)

  predicate Enabled(s: System, e: Event) {
    match e
    case Accept(_) => s.acceptor.Idle?
    case Look => s.acceptor.Scanning? && |s.acceptor.seen| < |s.workers| && !ScanOver(s.acceptor, |s.workers|)
    case Decide => ScanOver(s.acceptor, |s.workers|)
    case EpollAdd(_) => s.acceptor.Chosen? && s.acceptor.target < |s.workers|
    case Count => s.acceptor.Added? && s.acceptor.target < |s.workers|
    case Register(w, fd) => w < |s.workers| && s.workers[w].phase.Ready? && fd in s.workers[w].pending
        && fd !in s.workers[w].busy
    case Reject(w, fd) => w < |s.workers| && s.workers[w].phase.Ready? && fd in s.workers[w].pending
        && fd !in s.workers[w].busy
    case CloseSocket(w, fd) => w < |s.workers| && s.workers[w].phase.Ready? && fd in s.workers[w].busy
    case CountClosed(w) => w < |s.workers| && s.workers[w].phase.Closing?
    case Relink(w) => w < |s.workers| && s.workers[w].phase.Counted?
  }

  /** The first place of `fd` leaves the queue. */
  function Unqueue(q: seq<int>, fd: int): (r: seq<int>)
    ensures |r| == if fd in q then |q| - 1 else |q|
  {
    if q == [] then [] else if q[0] == fd then q[1..] else [q[0]] + Unqueue(q[1..], fd)
  }

  function WorkerStep(w: Worker, e: Event): Worker {
    match e
    case Register(_, fd) => w.(pending := w.pending - multiset{fd}, busy := w.busy + [fd], free := w.free - 1)
    case Reject(_, fd) => w.(pending := w.pending - multiset{fd}, lost := w.lost + 1)
    case CloseSocket(_, fd) => w.(phase := Closing(fd))
    case CountClosed(_) => if w.phase.Closing? then w.(closed := w.closed + 1, phase := Counted(w.phase.fd)) else w
    case Relink(_) => if w.phase.Counted?
        then w.(busy := Unqueue(w.busy, w.phase.fd), free := w.free + 1, phase := Ready) else w
    case _ => w
  }

  /** One more load read: a smaller one becomes the target. */
  function Looked(a: Acceptor, load: int): Acceptor
    requires a.Scanning?
  {
    if a.seen == [] then Scanning(a.fd, 0, load, [load])
    else if load < a.cur then Scanning(a.fd, |a.seen|, load, a.seen + [load])
    else a.(seen := a.seen + [load])
  }

  /** The end of the scan; a first worker without load is taken before the capacity is compared. */
  function Decided(a: Acceptor, capacity: nat): Acceptor
    requires a.Scanning? && |a.seen| > 0
  {
    if a.seen[0] == 0 then Chosen(a.fd, 0)
    else if a.cur >= capacity then Idle
    else Chosen(a.fd, a.target)
  }

  function Do(s: System, e: Event, capacity: nat): System
    requires Enabled(s, e)
  {
    match e
    case Accept(fd) => s.(acceptor := Scanning(fd, 0, 0, []))
    case Look => s.(acceptor := Looked(s.acceptor, Reading(s.workers[|s.acceptor.seen|])))
    case Decide => s.(acceptor := Decided(s.acceptor, capacity))
    case EpollAdd(ok) =>
      var t, fd := s.acceptor.target, s.acceptor.fd;
      if ok then
        System(s.workers[t := s.workers[t].(pending := s.workers[t].pending + multiset{fd})], Added(fd, t))
      else s.(acceptor := Idle)
    case Count =>
      var t := s.acceptor.target;
      System(s.workers[t := s.workers[t].(accepted := s.workers[t].accepted + 1)], Idle)
    case Register(w, _) => s.(workers := s.workers[w := WorkerStep(s.workers[w], e)])
    case Reject(w, _) => s.(workers := s.workers[w := WorkerStep(s.workers[w], e)])
    case CloseSocket(w, _) => s.(workers := s.workers[w := WorkerStep(s.workers[w], e)])
    case CountClosed(w) => s.(workers := s.workers[w := WorkerStep(s.workers[w], e)])
    case Relink(w) => s.(workers := s.workers[w := WorkerStep(s.workers[w], e)])
  }

  function Start(n: nat, capacity: nat): System {
    System(seq(n, _ => Worker(0, 0, [], capacity, Ready, multiset{}, 0)), Idle)
  }

  /** A run: every event is enabled where it happens. */
  predicate IsRun(s: System, run: seq<Event>, capacity: nat)
    decreases |run|
  {
    run == [] || (Enabled(s, run[0]) && IsRun(Do(s, run[0], capacity), run[1..], capacity))
  }

  function Reached(s: System, run: seq<Event>, capacity: nat): System
    requires IsRun(s, run, capacity)
    decreases |run|
  {
    if run == [] then s else Reached(Do(s, run[0], capacity), run[1..], capacity)
  }

  /** 1 while a client is in the epoll set of worker `i` and not counted yet. */
  function InFlight(s: System, i: nat): int {
    if s.acceptor.Added? && s.acceptor.target == i then 1 else 0
  }

  function Uncounted(w: Worker): int { if w.phase.Counted? then 1 else 0 }

  /** Every client ever added is closed, being served, waiting or lost. */
  predicate Balanced(w: Worker, inFlight: int) {
    w.accepted + inFlight + Uncounted(w) == w.closed + |w.busy| + |w.pending| + w.lost
  }

  predicate NoTwice(q: seq<int>) {
    forall i, j :: 0 <= i < j < |q| ==> q[i] != q[j]
  }

  predicate WorkerOk(w: Worker, inFlight: int, capacity: nat) {
    && Balanced(w, inFlight) && |w.busy| + w.free == capacity && w.free >= 0 && NoTwice(w.busy)
    && w.accepted + inFlight - w.closed <= capacity
    && (!w.phase.Ready? ==> w.phase.fd in w.busy)
  }

  /** `t` is the first place with the least value. */
  predicate FirstLeast(seen: seq<int>, t: nat) {
    t < |seen| && (forall j :: 0 <= j < |seen| ==> seen[t] <= seen[j]) && (forall j :: 0 <= j < t ==> seen[t] < seen[j])
  }

  /** What the accepting thread may rely on. */
  predicate AcceptorOk(s: System, capacity: nat) {
    match s.acceptor
    case Idle => true
    case Scanning(_, t, cur, seen) =>
      seen != [] ==>
        && |seen| <= |s.workers| && FirstLeast(seen, t) && cur == seen[t]
        && (forall j :: 0 <= j < |seen| ==> s.workers[j].accepted - s.workers[j].closed <= seen[j])
    case Chosen(_, t) => t < |s.workers| && s.workers[t].accepted - s.workers[t].closed < capacity
    case Added(_, t) => t < |s.workers|
  }

  predicate Inv(s: System, capacity: nat) {
    && (forall i :: 0 <= i < |s.workers| ==> WorkerOk(s.workers[i], InFlight(s, i), capacity))
    && AcceptorOk(s, capacity)
  }

  lemma {:induction false} UnqueueKeeps(q: seq<int>, fd: int)
    requires NoTwice(q)
    ensures NoTwice(Unqueue(q, fd))
    ensures forall x :: x in Unqueue(q, fd) <==> x in q && x != fd
  {
    if q != [] {
      var rest := q[1..];
      assert forall x :: x in q <==> x == q[0] || x in rest;
      assert q[0] !in rest;
      UnqueueKeeps(rest, fd);
      var r := Unqueue(rest, fd);
      if q[0] != fd {
        assert forall j :: 0 <= j < |r| ==> r[j] in r;
        assert q[0] !in r;
      }
    }
  }

  predicate IsWorkerEvent(e: Event) {
    e.Register? || e.Reject? || e.CloseSocket? || e.CountClosed? || e.Relink?
  }

  /** A worker's own step keeps its balance and never raises its load. */
  lemma WorkerKeeps(s: System, e: Event, capacity: nat)
    requires IsWorkerEvent(e) && Enabled(s, e) && WorkerOk(s.workers[e.w], InFlight(s, e.w), capacity)
    ensures var w, v := s.workers[e.w], WorkerStep(s.workers[e.w], e);
            WorkerOk(v, InFlight(s, e.w), capacity) && v.accepted == w.accepted && v.closed >= w.closed
  {
    var w := s.workers[e.w];
    if e.Relink? {
      UnqueueKeeps(w.busy, w.phase.fd);
    } else if e.Register? {
      assert |w.pending - multiset{e.fd}| == |w.pending| - 1;
    }
  }

  /** While nobody is in flight, the unsigned subtraction is the true load. */
  lemma ReadingTrue(w: Worker, capacity: nat)
    requires WorkerOk(w, 0, capacity) && capacity < TWO32
    ensures Reading(w) == w.accepted - w.closed
  {}

  lemma WorkerEventKeeps(s: System, e: Event, capacity: nat)
    requires Inv(s, capacity) && IsWorkerEvent(e) && Enabled(s, e)
    ensures Inv(Do(s, e, capacity), capacity)
  {
    hide WorkerOk, FirstLeast;
    WorkerKeeps(s, e, capacity);
    var t := Do(s, e, capacity);
    forall i | 0 <= i < |t.workers| ensures WorkerOk(t.workers[i], InFlight(t, i), capacity) {
      assert InFlight(t, i) == InFlight(s, i);
    }
  }

  lemma LookKeeps(s: System, capacity: nat)
    requires Inv(s, capacity) && Enabled(s, Look) && capacity < TWO32
    ensures Inv(Do(s, Look, capacity), capacity)
  {
    hide Balanced, NoTwice;
    var k := |s.acceptor.seen|;
    assert InFlight(s, k) == 0;
    ReadingTrue(s.workers[k], capacity);
    var t := Do(s, Look, capacity);
    forall i | 0 <= i < |t.workers| ensures WorkerOk(t.workers[i], InFlight(t, i), capacity) {
      assert WorkerOk(s.workers[i], InFlight(s, i), capacity);
    }
  }

  lemma AcceptorEventKeeps(s: System, e: Event, capacity: nat)
    requires Inv(s, capacity) && (e.Accept? || e.Decide? || e.EpollAdd? || e.Count?) && Enabled(s, e) && capacity > 0
    ensures Inv(Do(s, e, capacity), capacity)
  {
    hide NoTwice;
    var t := Do(s, e, capacity);
    forall i | 0 <= i < |t.workers| ensures WorkerOk(t.workers[i], InFlight(t, i), capacity) {
      assert WorkerOk(s.workers[i], InFlight(s, i), capacity);
    }
  }

  lemma StepKeeps(s: System, e: Event, capacity: nat)
    requires Inv(s, capacity) && Enabled(s, e) && 0 < capacity < TWO32
    ensures Inv(Do(s, e, capacity), capacity)
  {
    if IsWorkerEvent(e) {
      WorkerEventKeeps(s, e, capacity);
    } else if e.Look? {
      LookKeeps(s, capacity);
    } else {
      AcceptorEventKeeps(s, e, capacity);
    }
  }

  lemma {:induction false} RunKeeps(s: System, run: seq<Event>, capacity: nat)
    requires Inv(s, capacity) && IsRun(s, run, capacity) && 0 < capacity < TWO32
    ensures Inv(Reached(s, run, capacity), capacity)
    decreases |run|
  {
    if run != [] {
      StepKeeps(s, run[0], capacity);
      RunKeeps(Do(s, run[0], capacity), run[1..], capacity);
    }
  }

  /** What must hold wherever a run can get to. */
  ghost predicate Safe(s: System, capacity: nat) {
    && (forall i :: 0 <= i < |s.workers| ==> LoadBounded(s.workers[i], InFlight(s, i), capacity))
    && (forall i, fd :: 0 <= i < |s.workers| && Enabled(s, Register(i, fd)) ==> s.workers[i].free > 0)
    && (s.acceptor.Scanning? ==>
          forall i :: 0 <= i < |s.workers| ==> Reading(s.workers[i]) == s.workers[i].accepted - s.workers[i].closed)
  }

  /** Served and waiting clients within the load, the load within the capacity, slots partitioned. */
  predicate LoadBounded(w: Worker, inFlight: int, capacity: nat) {
    && |w.busy| + |w.pending| <= w.accepted + inFlight + Uncounted(w) - w.closed
    && w.accepted + inFlight - w.closed <= capacity
    && |w.busy| + w.free == capacity && w.free >= 0
  }

  lemma InvSafe(s: System, capacity: nat)
    requires Inv(s, capacity) && capacity < TWO32
    ensures Safe(s, capacity)
  {
    hide NoTwice, AcceptorOk;
    forall i | 0 <= i < |s.workers| ensures LoadBounded(s.workers[i], InFlight(s, i), capacity) {
      assert WorkerOk(s.workers[i], InFlight(s, i), capacity);
    }
    forall i, fd | 0 <= i < |s.workers| && Enabled(s, Register(i, fd)) ensures s.workers[i].free > 0 {
      assert WorkerOk(s.workers[i], InFlight(s, i), capacity);
      assert |s.workers[i].pending - multiset{fd}| == |s.workers[i].pending| - 1;
    }
    if s.acceptor.Scanning? {
      forall i | 0 <= i < |s.workers| ensures Reading(s.workers[i]) == s.workers[i].accepted - s.workers[i].closed {
        assert WorkerOk(s.workers[i], InFlight(s, i), capacity);
        ReadingTrue(s.workers[i], capacity);
      }
    }
  }

  lemma StartOk(n: nat, capacity: nat)
    ensures Inv(Start(n, capacity), capacity)
  {}

  /** With no slots at all, the first client is still accepted. */
  lemma NoCapacity(n: nat) returns (run: seq<Event>)
    requires n > 0
    ensures IsRun(Start(n, 0), run, 0) && !Safe(Reached(Start(n, 0), run, 0), 0)
  {
    run := [Accept(7), Look, Decide, EpollAdd(true)];
    var s0 := Start(n, 0);
    var s1 := Do(s0, Accept(7), 0);
    var s2 := Do(s1, Look, 0);
    assert s2.acceptor == Scanning(7, 0, 0, [0]);
    var s3 := Do(s2, Decide, 0);
    assert s3.acceptor == Chosen(7, 0);
    var s4 := Do(s3, EpollAdd(true), 0);
    Unroll(s3, EpollAdd(true), [], 0);
    Unroll(s2, Decide, [EpollAdd(true)], 0);
    Unroll(s1, Look, [Decide, EpollAdd(true)], 0);
    Unroll(s0, Accept(7), [Look, Decide, EpollAdd(true)], 0);
    assert s4.workers[0].free == 0 && Enabled(s4, Register(0, 7));
  }

  lemma Unroll(s: System, e: Event, rest: seq<Event>, capacity: nat)
    requires Enabled(s, e) && IsRun(Do(s, e, capacity), rest, capacity)
    ensures IsRun(s, [e] + rest, capacity)
    ensures Reached(s, [e] + rest, capacity) == Reached(Do(s, e, capacity), rest, capacity)
  {
    assert ([e] + rest)[1..] == rest;
  }

  /** The protocol is safe under every interleaving exactly when there is any capacity. */
  lemma SafeIff(n: nat, capacity: nat)
    requires n > 0 && capacity < TWO32
    ensures (forall run :: IsRun(Start(n, capacity), run, capacity) ==>
        Safe(Reached(Start(n, capacity), run, capacity), capacity))
       <==> capacity > 0
  {
    if capacity > 0 {
      forall run | IsRun(Start(n, capacity), run, capacity)
        ensures Safe(Reached(Start(n, capacity), run, capacity), capacity)
      {
        StartOk(n, capacity);
        RunKeeps(Start(n, capacity), run, capacity);
        InvSafe(Reached(Start(n, capacity), run, capacity), capacity);
      }
    } else {
      var run := NoCapacity(n);
    }
  }

  /** A client is dropped only after every worker was read at full capacity or more. */
  lemma DropsOnlyWhenFull(n: nat, run: seq<Event>, capacity: nat)
    requires IsRun(Start(n, capacity), run, capacity) && 0 < capacity < TWO32
    ensures var s := Reached(Start(n, capacity), run, capacity);
            Enabled(s, Decide) ==>
              && (Do(s, Decide, capacity).acceptor.Idle? <==>
                    |s.acceptor.seen| == |s.workers| && forall i :: 0 <= i < |s.workers| ==>
                        s.acceptor.seen[i] >= capacity)
              && (Do(s, Decide, capacity).acceptor.Chosen? ==>
                    FirstLeast(s.acceptor.seen, Do(s, Decide, capacity).acceptor.target))
  {
    StartOk(n, capacity);
    RunKeeps(Start(n, capacity), run, capacity);
    var s := Reached(Start(n, capacity), run, capacity);
    hide WorkerOk;
    if Enabled(s, Decide) {
      var a := s.acceptor;
      assert FirstLeast(a.seen, a.target) && a.cur == a.seen[a.target];
      if a.seen[0] == 0 && a.target != 0 { assert a.seen[a.target] < a.seen[0]; LoadsSeen(s, capacity); }
    }
  }

  /** A load read is never below what the worker has lost. */
  lemma LoadsSeen(s: System, capacity: nat)
    requires Inv(s, capacity) && s.acceptor.Scanning? && |s.acceptor.seen| > 0
    ensures forall j :: 0 <= j < |s.acceptor.seen| ==> s.acceptor.seen[j] >= s.workers[j].lost
  {
    forall j | 0 <= j < |s.acceptor.seen| ensures s.acceptor.seen[j] >= s.workers[j].lost {
      var w := s.workers[j];
      assert WorkerOk(w, InFlight(s, j), capacity);
    }
  }

  // ----- clients closed before they were registered ------------------------------------------------

  /** How many clients worker `i` has dropped unregistered. */
  function Rejects(run: seq<Event>, i: nat): nat {
    if run == [] then 0 else (if run[0].Reject? && run[0].w == i then 1 else 0) + Rejects(run[1..], i)
  }

  /** Every one of them is lost for the counters, and nothing ever makes up for it. */
  lemma {:induction false} LostAreRejects(s: System, run: seq<Event>, capacity: nat, i: nat)
    requires IsRun(s, run, capacity) && i < |s.workers|
    ensures |Reached(s, run, capacity).workers| == |s.workers|
    ensures Reached(s, run, capacity).workers[i].lost == s.workers[i].lost + Rejects(run, i)
    decreases |run|
  {
    if run != [] {
      LostStep(s, run[0], capacity, i);
      LostAreRejects(Do(s, run[0], capacity), run[1..], capacity, i);
    }
  }

  lemma LostStep(s: System, e: Event, capacity: nat, i: nat)
    requires Enabled(s, e) && i < |s.workers|
    ensures |Do(s, e, capacity).workers| == |s.workers|
    ensures Do(s, e, capacity).workers[i].lost == s.workers[i].lost + if e.Reject? && e.w == i then 1 else 0
  {}

  lemma {:induction false} RejectsAdd(run: seq<Event>, more: seq<Event>, i: nat)
    ensures Rejects(run + more, i) == Rejects(run, i) + Rejects(more, i)
  {
    if run == [] {
      assert run + more == more;
    } else {
      assert (run + more)[1..] == run[1..] + more;
      RejectsAdd(run[1..], more, i);
    }
  }

  /** The clients a worker really has: served or waiting, without the one it is just relinking. */
  function RealLoad(w: Worker): int { |w.busy| + |w.pending| - Uncounted(w) }

  /** Whenever the acceptor reads a worker, it reads the real load and what was lost on top of it. */
  lemma ReadingExceeds(n: nat, run: seq<Event>, capacity: nat, i: nat)
    requires i < n && IsRun(Start(n, capacity), run, capacity) && 0 < capacity < TWO32
    ensures |Reached(Start(n, capacity), run, capacity).workers| == n
    ensures var s := Reached(Start(n, capacity), run, capacity);
            s.acceptor.Scanning? ==> Reading(s.workers[i]) == RealLoad(s.workers[i]) + Rejects(run, i) <= capacity
  {
    StartOk(n, capacity);
    RunKeeps(Start(n, capacity), run, capacity);
    LostAreRejects(Start(n, capacity), run, capacity, i);
    var s := Reached(Start(n, capacity), run, capacity);
    assert WorkerOk(s.workers[i], InFlight(s, i), capacity);
    if s.acceptor.Scanning? {
      ReadingTrue(s.workers[i], capacity);
    }
  }

  /** A worker that is read as full really is full if and only if it never dropped a client unregistered. */
  lemma FullIsTrueIff(n: nat, run: seq<Event>, capacity: nat, i: nat)
    requires i < n && IsRun(Start(n, capacity), run, capacity) && 0 < capacity < TWO32
    ensures |Reached(Start(n, capacity), run, capacity).workers| == n
    ensures var s := Reached(Start(n, capacity), run, capacity);
            s.acceptor.Scanning? && Reading(s.workers[i]) >= capacity ==>
              (RealLoad(s.workers[i]) >= capacity <==> Rejects(run, i) == 0)
  {
    ReadingExceeds(n, run, capacity, i);
  }

  /** No worker has moved since it was read. */
  predicate StillAsRead(s: System) {
    s.acceptor.Scanning? && |s.acceptor.seen| == |s.workers|
    && forall i :: 0 <= i < |s.workers| ==> s.acceptor.seen[i] == Reading(s.workers[i])
  }

  ghost predicate ReallyFull(s: System, capacity: nat) {
    forall i :: 0 <= i < |s.workers| ==> RealLoad(s.workers[i]) >= capacity
  }

  /** Each worker has dropped as many clients unregistered as it has slots. */
  ghost predicate AllLost(run: seq<Event>, n: nat, capacity: nat) {
    forall i :: 0 <= i < n ==> Rejects(run, i) >= capacity
  }

  ghost predicate NoRejects(run: seq<Event>, n: nat) {
    forall i :: 0 <= i < n ==> Rejects(run, i) == 0
  }

  /**
    * A client is refused by a scan that no worker interrupted: the server really is full if and
    * only if no worker has dropped a client unregistered.
    */
  lemma RefusalIsTrueIff(n: nat, run: seq<Event>, capacity: nat)
    requires n > 0 && IsRun(Start(n, capacity), run, capacity) && 0 < capacity < TWO32
    ensures |Reached(Start(n, capacity), run, capacity).workers| == n
    ensures var s := Reached(Start(n, capacity), run, capacity);
            Enabled(s, Decide) && StillAsRead(s) && Do(s, Decide, capacity).acceptor.Idle? ==>
              (ReallyFull(s, capacity) <==> NoRejects(run, n))
  {
    var s := Reached(Start(n, capacity), run, capacity);
    ReadingExceeds(n, run, capacity, 0);
    DropsOnlyWhenFull(n, run, capacity);
    if Enabled(s, Decide) && StillAsRead(s) && Do(s, Decide, capacity).acceptor.Idle? {
      hide Reached, Enabled, Do;
      forall i | 0 <= i < n ensures RealLoad(s.workers[i]) >= capacity <==> Rejects(run, i) == 0 {
        FullIsTrueIff(n, run, capacity, i);
      }
    }
  }

  /**
    * An empty server, scanned without interruption, refuses a client if and only if each worker
    * has dropped as many clients unregistered as it has slots.
    */
  lemma EmptyRefusesIff(n: nat, run: seq<Event>, capacity: nat)
    requires n > 0 && IsRun(Start(n, capacity), run, capacity) && 0 < capacity < TWO32
    ensures |Reached(Start(n, capacity), run, capacity).workers| == n
    ensures var s := Reached(Start(n, capacity), run, capacity);
            Enabled(s, Decide) && StillAsRead(s) && (forall i :: 0 <= i < n ==> RealLoad(s.workers[i]) == 0) ==>
              (Do(s, Decide, capacity).acceptor.Idle? <==> AllLost(run, n, capacity))
  {
    var s := Reached(Start(n, capacity), run, capacity);
    ReadingExceeds(n, run, capacity, 0);
    DropsOnlyWhenFull(n, run, capacity);
    if Enabled(s, Decide) && StillAsRead(s) && forall i :: 0 <= i < n ==> RealLoad(s.workers[i]) == 0 {
      hide Reached, Enabled, Do;
      forall i | 0 <= i < n ensures s.acceptor.seen[i] == Rejects(run, i) {
        ReadingExceeds(n, run, capacity, i);
      }
      SeenIsLost(s.acceptor.seen, run, n, capacity);
    }
  }

  lemma SeenIsLost(seen: seq<int>, run: seq<Event>, n: nat, capacity: nat)
    requires |seen| == n && forall i :: 0 <= i < n ==> seen[i] == Rejects(run, i)
    ensures (forall i :: 0 <= i < n ==> seen[i] >= capacity) <==> AllLost(run, n, capacity)
  {
    hide Rejects;
    if forall i :: 0 <= i < n ==> seen[i] >= capacity {
      forall i | 0 <= i < n ensures Rejects(run, i) >= capacity {
        assert seen[i] == Rejects(run, i);
      }
    } else {
      var i :| 0 <= i < n && seen[i] < capacity;
      assert seen[i] == Rejects(run, i);
    }
  }

  /** Once every worker has, each further client of every further run is refused. */
  lemma LostForGood(n: nat, run: seq<Event>, more: seq<Event>, capacity: nat)
    requires IsRun(Start(n, capacity), run + more, capacity) && 0 < capacity < TWO32
    requires AllLost(run, n, capacity)
    ensures var s := Reached(Start(n, capacity), run + more, capacity);
            Enabled(s, Decide) ==> Do(s, Decide, capacity).acceptor.Idle?
  {
    StartOk(n, capacity);
    RunKeeps(Start(n, capacity), run + more, capacity);
    var s := Reached(Start(n, capacity), run + more, capacity);
    forall i | 0 <= i < n ensures |s.workers| == n && s.workers[i].lost >= capacity {
      LostAreRejects(Start(n, capacity), run + more, capacity, i);
      RejectsAdd(run, more, i);
    }
    if Enabled(s, Decide) {
      LoadsSeen(s, capacity);
      assert FirstLeast(s.acceptor.seen, s.acceptor.target) && s.acceptor.cur == s.acceptor.seen[s.acceptor.target];
      WorkersStay(Start(n, capacity), run + more, capacity);
    }
  }

  lemma {:induction false} WorkersStay(s: System, run: seq<Event>, capacity: nat)
    requires IsRun(s, run, capacity)
    ensures |Reached(s, run, capacity).workers| == |s.workers|
    decreases |run|
  {
    if run != [] {
      WorkersStay(Do(s, run[0], capacity), run[1..], capacity);
    }
  }

  const FRESH := Worker(0, 0, [], 1, Ready, multiset{}, 0)
  const WAITING := FRESH.(accepted := 1, pending := multiset{7})
  const DROPPED := FRESH.(accepted := 1, lost := 1)

  /** Client 7 is chosen for the only worker, */
  lemma ChosenFirst(rest: seq<Event>)
    requires IsRun(System([FRESH], Chosen(7, 0)), rest, 1)
    ensures IsRun(Start(1, 1), [Accept(7), Look, Decide] + rest, 1)
    ensures Reached(Start(1, 1), [Accept(7), Look, Decide] + rest, 1) == Reached(System([FRESH], Chosen(7, 0)), rest, 1)
  {
    hide IsRun, Reached;
    assert Start(1, 1) == System([FRESH], Idle);
    Unroll(System([FRESH], Scanning(7, 0, 0, [0])), Decide, rest, 1);
    Unroll(System([FRESH], Scanning(7, 0, 0, [])), Look, [Decide] + rest, 1);
    Unroll(Start(1, 1), Accept(7), [Look] + ([Decide] + rest), 1);
    assert [Accept(7), Look, Decide] + rest == [Accept(7)] + ([Look] + ([Decide] + rest));
  }

  /** added and counted, */
  lemma CountedThen(rest: seq<Event>)
    requires IsRun(System([WAITING], Idle), rest, 1)
    ensures IsRun(System([FRESH], Chosen(7, 0)), [EpollAdd(true), Count] + rest, 1)
    ensures Reached(System([FRESH], Chosen(7, 0)), [EpollAdd(true), Count] + rest, 1)
         == Reached(System([WAITING], Idle), rest, 1)
  {
    hide IsRun, Reached;
    var added := FRESH.(pending := multiset{7});
    assert FRESH.pending + multiset{7} == multiset{7};
    assert Do(System([FRESH], Chosen(7, 0)), EpollAdd(true), 1).workers == [added];
    assert Do(System([added], Added(7, 0)), Count, 1).workers == [WAITING];
    Unroll(System([added], Added(7, 0)), Count, rest, 1);
    Unroll(System([FRESH], Chosen(7, 0)), EpollAdd(true), [Count] + rest, 1);
    assert [EpollAdd(true), Count] + rest == [EpollAdd(true)] + ([Count] + rest);
  }

  /** dropped unregistered, and the next client comes. */
  lemma DroppedThen()
    ensures IsRun(System([WAITING], Idle), [Reject(0, 7), Accept(8), Look], 1)
    ensures Reached(System([WAITING], Idle), [Reject(0, 7), Accept(8), Look], 1)
         == System([DROPPED], Scanning(8, 0, 1, [1]))
  {
    assert WAITING.pending - multiset{7} == multiset{};
    assert WorkerStep(WAITING, Reject(0, 7)) == DROPPED && Reading(DROPPED) == 1;
    Unroll(System([DROPPED], Scanning(8, 0, 0, [])), Look, [], 1);
    assert [Look] + [] == [Look];
    Unroll(System([DROPPED], Idle), Accept(8), [Look], 1);
    assert [Accept(8)] + [Look] == [Accept(8), Look];
    Unroll(System([WAITING], Idle), Reject(0, 7), [Accept(8), Look], 1);
    assert [Reject(0, 7)] + [Accept(8), Look] == [Reject(0, 7), Accept(8), Look];
  }

  /** One worker with one slot loses it to the first client it drops, and refuses the second. */
  lemma LossExample() returns (run: seq<Event>)
    ensures IsRun(Start(1, 1), run, 1)
    ensures var s := Reached(Start(1, 1), run, 1);
            && Enabled(s, Decide) && Do(s, Decide, 1).acceptor.Idle?
            && |s.workers| == 1 && RealLoad(s.workers[0]) == 0
  {
    hide IsRun, Reached;
    var rest := [Reject(0, 7), Accept(8), Look];
    DroppedThen();
    CountedThen(rest);
    ChosenFirst([EpollAdd(true), Count] + rest);
    run := [Accept(7), Look, Decide] + ([EpollAdd(true), Count] + rest);
  }

  /** A scan that no worker interrupts: the first least-loaded worker, or -1 when all are full. */
  method NextTarget(workers: seq<Worker>, capacity: nat) returns (t: int)
    requires |workers| > 0
    ensures t == -1 <==> Reading(workers[0]) != 0 && forall i :: 0 <= i < |workers| ==> Reading(workers[i]) >= capacity
    ensures t != -1 ==> 0 <= t < |workers|
    ensures t != -1 ==> forall i :: 0 <= i < |workers| ==> Reading(workers[t]) <= Reading(workers[i])
    ensures t != -1 ==> forall i :: 0 <= i < t ==> Reading(workers[t]) < Reading(workers[i])
  {
    t := 0;
    var cur := Reading(workers[0]);
    if cur == 0 { return 0; }
    var i := 1;
    while i < |workers|
      invariant 1 <= i <= |workers| && 0 <= t < i && cur == Reading(workers[t]) > 0
      invariant forall j :: 0 <= j < i ==> cur <= Reading(workers[j])
      invariant forall j :: 0 <= j < t ==> cur < Reading(workers[j])
    {
      var tmp := Reading(workers[i]);
      if tmp < cur {
        t := i;
        cur := tmp;
        if cur == 0 { break; }
      }
      i := i + 1;
    }
    if cur >= capacity { return -1; }
  }
}
