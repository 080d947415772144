/** What one worker's queues hold, as values, and what each change does to them. */
module Queues {
  import opened Bytes
  import opened List

  const AVAILABLE: int := -1
  const PENDING: int := 0
  const INCOMPLETE: int := -1
  const COMPLETED: int := 0

  datatype Conn = Conn(socket: int, status: int, arrive: int)
  datatype Session = Session(socket: int, status: int, init: int, requests: int)

  /** A `time_t` sum stored in an `int`. */
  function Int32(x: int): int { (x + TWO31) % TWO32 - TWO31 }

  predicate ConnExpired(c: Conn, now: int, timeout: int) {
    c.status == PENDING && Int32(c.arrive + timeout) <= now
  }

  predicate SessionExpired(s: Session, now: int, timeout: int, keepAlive: int) {
    s.status == INCOMPLETE && Int32(s.init + if s.requests == 0 then timeout else keepAlive) <= now
  }

  /** What becomes of a slot whose connection is removed. */
  function Freed(c: Conn): Conn { c.(status := AVAILABLE, socket := -1) }

  /** The queues without their heads, the record around each link, and the counter. */
  datatype Books = Books(busy: Links, av: Links, conns: map<Link, Conn>, closed: nat)

  /** Busy and available partition the slots, sockets are unique, idle slots are clean. */
  ghost predicate Kept(b: Books) {
    && Distinct(b.busy) && Distinct(b.av) && Apart(b.busy, b.av)
    && b.conns.Keys == All(b.busy) + All(b.av)
    && OneEach(b.busy, b.conns) && Clean(b.av, b.conns)
  }

  ghost predicate OneEach(busy: Links, conns: map<Link, Conn>) {
    forall x, y :: x in busy && y in busy && x in conns && y in conns && x != y ==> conns[x].socket != conns[y].socket
  }

  ghost predicate Clean(av: Links, conns: map<Link, Conn>) {
    forall x :: x in av && x in conns ==> conns[x].socket == -1 && conns[x].status == AVAILABLE
  }

  ghost predicate Serves(b: Books, x: Link, fd: int) {
    x in b.busy && x in b.conns && b.conns[x].socket == fd
  }

  /** `s` without the members of `d`, in the same order. */
  ghost function Minus(s: Links, d: set<Link>): (r: Links)
    ensures All(r) == All(s) - d
  {
    if s == [] then []
    else
      var last := if s[|s| - 1] in d then [] else [s[|s| - 1]];
      assert s == s[..|s| - 1] + [s[|s| - 1]];
      AllAppend(Minus(s[..|s| - 1], d), last);
      AllAppend(s[..|s| - 1], [s[|s| - 1]]);
      Minus(s[..|s| - 1], d) + last
  }

  /** The slots whose links are in `d` are freed. */
  ghost function FreedIn(conns: map<Link, Conn>, d: set<Link>): (r: map<Link, Conn>)
    ensures r.Keys == conns.Keys
  {
    map x | x in conns :: if x in d then Freed(conns[x]) else conns[x]
  }

  /** The slot `x` goes back to the available queue. */
  ghost function Dropped(b: Books, x: Link): Books
    requires x in b.conns
  {
    Books(Minus(b.busy, {x}), b.av + [x], b.conns[x := Freed(b.conns[x])], b.closed + 1)
  }

  /** The first available slot takes a new client. */
  ghost function Taken(b: Books, fd: int, now: int): Books
    requires |b.av| > 0
  {
    Books(b.busy + [b.av[0]], b.av[1..], b.conns[b.av[0] := Conn(fd, PENDING, now)], b.closed)
  }

  /** All of `dead` gone, in that order; everything else in place. */
  ghost function Purged(b: Books, dead: Links): Books {
    Books(Minus(b.busy, All(dead)), b.av + dead, FreedIn(b.conns, All(dead)), b.closed + |dead|)
  }

  /** The members of `s` in `d`, in order. */
  ghost function Picked(s: Links, d: set<Link>): (r: Links) {
    if s == [] then [] else Picked(s[..|s| - 1], d) + if s[|s| - 1] in d then [s[|s| - 1]] else []
  }

  lemma PickedNext(s: Links, k: nat, d: set<Link>)
    requires k < |s|
    ensures Picked(s[..k + 1], d) == if s[k] in d then Picked(s[..k], d) + [s[k]] else Picked(s[..k], d)
  {
    assert s[..k + 1][..k] == s[..k];
  }

  lemma {:induction false} PickedAre(s: Links, d: set<Link>)
    ensures All(Picked(s, d)) == All(s) * d
  {
    if s != [] {
      var front, last := s[..|s| - 1], s[|s| - 1];
      PickedAre(front, d);
      assert s == front + [last];
      AllAppend(front, [last]);
      AllAppend(Picked(front, d), if last in d then [last] else []);
    }
  }

  /** The slots whose connections wait too long. */
  ghost function Stale(conns: map<Link, Conn>, now: int, timeout: int): set<Link> {
    set x | x in conns && ConnExpired(conns[x], now, timeout)
  }

  lemma {:induction false} MinusDistinct(s: Links, d: set<Link>)
    requires Distinct(s)
    ensures Distinct(Minus(s, d))
  {
    if s != [] {
      MinusDistinct(s[..|s| - 1], d);
      var r := Minus(s[..|s| - 1], d);
      assert s[|s| - 1] !in All(r);
      assert forall i :: 0 <= i < |r| ==> r[i] in All(r);
    }
  }

  lemma {:induction false} MinusTwice(s: Links, d: set<Link>, e: set<Link>)
    ensures Minus(Minus(s, d), e) == Minus(s, d + e)
  {
    if s != [] {
      var last, r := s[|s| - 1], Minus(s[..|s| - 1], d);
      MinusTwice(s[..|s| - 1], d, e);
      assert (r + [last])[..|r|] == r && r + [] == r;
    }
  }

  lemma {:induction false} MinusNone(s: Links, d: set<Link>)
    requires forall x :: x in s ==> x !in d
    ensures Minus(s, d) == s
  {
    if s != [] {
      MinusNone(s[..|s| - 1], d);
      assert s[|s| - 1] in s;
    }
  }

  lemma {:induction false} MinusAppend(s: Links, t: Links, d: set<Link>)
    ensures Minus(s + t, d) == Minus(s, d) + Minus(t, d)
  {
    if t == [] {
      assert s + t == s;
    } else {
      assert (s + t)[..|s + t| - 1] == s + t[..|t| - 1];
      MinusAppend(s, t[..|t| - 1], d);
    }
  }

  lemma {:induction false} WithoutIsMinus(s: Links, k: nat)
    requires Distinct(s) && k < |s|
    ensures Without(s, k) == Minus(s, {s[k]})
  {
    var front := s[..|s| - 1];
    if k == |s| - 1 {
      MinusNone(front, {s[k]});
    } else {
      WithoutIsMinus(front, k);
      assert s[k + 1..] == front[k + 1..] + [s[|s| - 1]];
    }
  }

  lemma DroppedKept(b: Books, x: Link)
    requires Kept(b) && x in b.busy
    ensures Kept(Dropped(b, x))
  {
    MinusDistinct(b.busy, {x});
  }

  lemma TakenKept(b: Books, fd: int, now: int)
    requires Kept(b) && |b.av| > 0 && forall x :: !Serves(b, x, fd)
    ensures Kept(Taken(b, fd, now))
  {
    var t := Taken(b, fd, now);
    var x := b.av[0];
    assert b.av == [x] + b.av[1..];
    assert All(t.busy) == All(b.busy) + {x} && All(b.av) == All(t.av) + {x};
    forall y | y in b.busy ensures b.conns[y].socket != fd {
      assert !Serves(b, y, fd);
    }
  }

  /** One more removal after many is one longer purge. */
  lemma PurgeNext(b: Books, dead: Links, x: Link)
    requires x in b.busy && x in b.conns && x !in dead
    ensures Dropped(Purged(b, dead), x) == Purged(b, dead + [x])
  {
    assert All(dead + [x]) == All(dead) + {x};
    MinusTwice(b.busy, All(dead), {x});
    assert b.av + dead + [x] == b.av + (dead + [x]);
    assert FreedIn(b.conns, All(dead))[x] == b.conns[x];
    assert FreedIn(b.conns, All(dead))[x := Freed(b.conns[x])] == FreedIn(b.conns, All(dead) + {x});
  }

  lemma PurgeNothing(b: Books)
    ensures Purged(b, []) == b
  {
    MinusNone(b.busy, All([]));
    assert FreedIn(b.conns, All([])) == b.conns;
  }

  /** In a list thinned out before place `k`, the link in place `k` still has its old successor. */
  lemma NextSurvivor(head: Link, s: Links, d: set<Link>, k: nat) returns (j: nat)
    requires k < |s| && forall x :: x in s[k..] ==> x !in d
    ensures 1 <= j <= |Minus(s, d)| && ([head] + Minus(s, d))[j] == s[k]
    ensures After([head] + Minus(s, d), j) == After([head] + s, k + 1)
  {
    MinusAppend(s[..k], s[k..], d);
    assert s == s[..k] + s[k..];
    MinusNone(s[k..], d);
    j := |Minus(s[..k], d)| + 1;
  }
}

/** One worker's queues as linked lists, the session list, and the timeout sweep. */
module Scheduler {
  import opened List
  import opened Queues

  class Worker {
    var closed: nat
    const busyHead: Link
    const avHead: Link
    /** The connection record around each link. */
    var conns: map<Link, Conn>
    ghost var busy: Links
    ghost var av: Links

    ghost function Now(): Books
      reads this
    {
      Books(busy, av, conns, closed)
    }

    ghost function Footprint(): set<Link>
      reads this
    {
      All([busyHead] + busy) + All([avHead] + av)
    }

    /** A worker is not one of its links. */
    lemma NoLink()
      ensures forall ns: Links, o: object :: o in All(ns) ==> o != this
    {}

    ghost predicate Lists()
      reads this, Footprint()
    {
      Circle([busyHead] + busy) && Circle([avHead] + av) && Apart([busyHead] + busy, [avHead] + av)
    }

    ghost predicate Valid()
      reads this, Footprint()
    {
      Lists() && Kept(Now())
    }

    /** A worker starts with `capacity` clean slots and no connection. */
    constructor (capacity: nat)
      ensures Valid() && fresh(Footprint())
      ensures closed == 0 && busy == [] && |av| == capacity
    {
      closed := 0;
      busyHead := new Link();
      avHead := new Link();
      conns := map[];
      busy := [];
      av := [];
      new;
      assert Kept(Now());
      hide Circle, Kept;
      Init(busyHead);
      InitBeside(avHead, [busyHead]);
      assert [busyHead] + busy == [busyHead] && [avHead] + av == [avHead];
      for i := 0 to capacity
        invariant Valid() && fresh(Footprint())
        invariant closed == 0 && busy == [] && |av| == i
      {
        NewSlot();
      }
    }

    /** One clean slot more, last in the available queue. */
    method NewSlot()
      requires Valid()
      modifies this`av, this`conns, Footprint()
      ensures Valid() && fresh(Footprint() - old(Footprint())) && |av| == |old(av)| + 1
    {
      hide Circle, Kept;
      NoLink();
      var link := new Link();
      AddBeside(link, avHead, [avHead] + av, [busyHead] + busy);
      SlotKept(Now(), link);
      av := av + [link];
      conns := conns[link := Conn(-1, AVAILABLE, 0)];
      assert [avHead] + old(av) + [link] == [avHead] + av;
    }

    /** The lookup by socket, along the busy queue. */
    method GetConnection(fd: int) returns (found: Link?, ghost k: nat)
      requires Valid()
      ensures found == null ==> forall x :: !Serves(Now(), x, fd)
      ensures found != null ==> k < |busy| && busy[k] == found && Serves(Now(), found, fd)
    {
      ghost var ns := [busyHead] + busy;
      FollowLinks(ns, 0);
      k := 0;
      var curr := busyHead.next;
      while curr != busyHead
        invariant 0 <= k <= |busy| && curr == After(ns, k)
        invariant forall i :: 0 <= i < k ==> conns[busy[i]].socket != fd
        decreases |busy| - k
      {
        assert curr == busy[k] && busy[k] in All(busy);
        if conns[curr].socket == fd {
          return curr, k;
        }
        FollowLinks(ns, k + 1);
        curr := curr.next;
        k := k + 1;
      }
      assert k == |busy|;
      found := null;
    }

    /** Counted as closed, freed, and put at the end of the available queue. */
    method ToAvailable(link: Link, ghost k: nat)
      requires Lists() && k < |busy| && busy[k] == link && link in conns
      modifies this, Footprint()
      ensures Lists() && busy == Without(old(busy), k) && av == old(av) + [link]
      ensures closed == old(closed) + 1 && conns == old(conns)[link := Freed(old(conns)[link])]
    {
      hide Circle;
      NoLink();
      Move(link, [busyHead] + busy, k + 1, avHead, [avHead] + av);
      closed := closed + 1;
      conns := conns[link := Freed(conns[link])];
      busy := Without(busy, k);
      av := av + [link];
      assert Without([busyHead] + old(busy), k + 1) == [busyHead] + busy;
      assert [avHead] + old(av) + [link] == [avHead] + av;
    }

    /** From the available queue to the end of the busy one. */
    method ToBusy(link: Link, c: Conn)
      requires Lists() && |av| > 0 && av[0] == link
      modifies this`conns, this`busy, this`av, Footprint()
      ensures Lists() && av == old(av)[1..] && busy == old(busy) + [link]
      ensures conns == old(conns)[link := c]
    {
      hide Circle;
      NoLink();
      Move(link, [avHead] + av, 1, busyHead, [busyHead] + busy);
      conns := conns[link := c];
      av := av[1..];
      busy := busy + [link];
      assert Without([avHead] + old(av), 1) == [avHead] + av;
      assert [busyHead] + old(busy) + [link] == [busyHead] + busy;
    }

    /**
      * A new client takes the first available slot, unless a plugin asks for it to be
      * closed; then nothing changes, not even the counter of closed connections.
      */
    method RegisterClient(fd: int, now: int, close: bool) returns (r: int)
      requires Valid() && |av| > 0 && forall x :: !Serves(Now(), x, fd)
      modifies this`conns, this`busy, this`av, Footprint()
      ensures Valid() && Footprint() == old(Footprint())
      ensures r == if close then -1 else 0
      ensures Now() == if close then old(Now()) else Taken(old(Now()), fd, now)
    {
      hide Circle, Kept;
      NoLink();
      ghost var ns := [avHead] + av;
      FollowLinks(ns, 0) by { DistinctLinks(ns); }
      if close { return -1; }
      var link := avHead.next;
      TakenKept(Now(), fd, now);
      ToBusy(link, Conn(fd, PENDING, now));
      assert old(av) == [link] + av;
      return 0;
    }

    /** The slot that serves the socket goes back to the available queue and is counted. */
    method RemoveClient(fd: int) returns (r: int, ghost x: Link)
      requires Valid()
      modifies this, Footprint()
      ensures Valid() && Footprint() == old(Footprint())
      ensures r == 0 || r == -1
      ensures r == -1 ==> Now() == old(Now()) && forall y :: !Serves(Now(), y, fd)
      ensures r == 0 ==> Serves(old(Now()), x, fd) && Now() == Dropped(old(Now()), x)
    {
      hide Circle, Kept, Minus;
      var found; ghost var k;
      x := busyHead;
      found, k := GetConnection(fd);
      if found == null { return -1, x; }
      x := found;
      Release(found, k);
      return 0, x;
    }

    method Release(link: Link, ghost k: nat)
      requires Valid() && k < |busy| && busy[k] == link
      modifies this, Footprint()
      ensures Valid() && Footprint() == old(Footprint())
      ensures link in old(conns) && Now() == Dropped(old(Now()), link)
    {
      hide Circle, Kept, Minus;
      InBooks(Now(), link);
      DroppedKept(Now(), link);
      WithoutIsMinus(busy, k) by { KeptDistinct(Now()); }
      SameLinks(busyHead, busy, link, avHead, av);
      ToAvailable(link, k);
    }

    /** One busy slot met by the sweep: it goes exactly if it is expired. */
    method SweepOne(curr: Link, now: int, timeout: int, ghost was: Books, ghost dead: Links) returns (ghost more: Links)
      requires Valid() && Kept(was) && Now() == Purged(was, dead) && curr in was.busy && curr !in dead
      requires curr in was.conns && curr in conns
      modifies this, Footprint()
      ensures Valid() && Footprint() == old(Footprint()) && Now() == Purged(was, more)
      ensures more == if ConnExpired(was.conns[curr], now, timeout) then dead + [curr] else dead
    {
      hide Circle, Kept, Minus;
      StillThere(was, dead, curr);
      if ConnExpired(conns[curr], now, timeout) {
        ghost var b := Now();
        var r; ghost var x;
        r, x := RemoveClient(conns[curr].socket);
        assert Serves(b, curr, b.conns[curr].socket);
        OnlyOne(b, x, curr);
        PurgeNext(was, dead, curr);
        more := dead + [curr];
      } else {
        more := dead;
      }
    }

    /** The first half of the sweep, along the busy queue while it shrinks. */
    method SweepPending(now: int, timeout: int) returns (ghost dead: Links)
      requires Valid()
      modifies this, Footprint()
      ensures Valid() && Footprint() == old(Footprint())
      ensures Now() == Purged(old(Now()), dead) && dead == Picked(old(busy), Stale(old(conns), now, timeout))
    {
      hide Circle, Kept, Minus, Purged, After, Distinct;
      ghost var was := Now();
      ghost var ns := [busyHead] + busy;
      ghost var k := 0;
      ghost var stale := Stale(conns, now, timeout);
      KeptDistinct(was);
      PurgeNothing(was);
      dead := [];
      DistinctLinks(ns);
      FollowLinks(ns, 0);
      var curr := busyHead.next;
      var n := curr.next;
      while curr != busyHead
        invariant Valid() && Footprint() == old(Footprint()) && Now() == Purged(was, dead)
        invariant 0 <= k <= |was.busy| && curr == After(ns, k) && n == curr.next
        invariant dead == Picked(was.busy[..k], stale)
        decreases |was.busy| - k
      {
        RoundEnds(ns, k);
        BusyAhead(busyHead, was, stale, k);
        dead := SweepOne(curr, now, timeout, was, dead);
        k := k + 1;
        curr := n;
        n := curr.next;
      }
      RoundEnds(ns, k);
      assert was.busy[..k] == was.busy;
    }
  }

  lemma KeptDistinct(b: Books)
    requires Kept(b)
    ensures Distinct(b.busy)
  {}

  lemma InBooks(b: Books, x: Link)
    requires Kept(b) && x in b.busy
    ensures x in b.conns
  {
    assert x in All(b.busy);
  }

  lemma StillThere(b: Books, dead: Links, x: Link)
    requires Kept(b) && x in b.busy && x !in dead
    ensures x in b.conns && Purged(b, dead).conns[x] == b.conns[x] && x in Purged(b, dead).busy
  {
    InBooks(b, x);
    assert x in All(Purged(b, dead).busy);
  }

  lemma OnlyOne(b: Books, x: Link, y: Link)
    requires Kept(b) && exists fd :: Serves(b, x, fd) && Serves(b, y, fd)
    ensures x == y
  {}

  lemma NextThere(head: Link, s: Links, d: set<Link>, k: nat)
    requires k < |s| && Circle([head] + Minus(s, d)) && forall x :: x in s[k..] ==> x !in d
    ensures s[k].next == After([head] + s, k + 1)
  {
    var j := NextSurvivor(head, s, d, k);
    FollowLinks([head] + Minus(s, d), j);
  }

  /** A sweep has reached place `k`: that link is still there, and so is its old successor. */
  lemma Ahead(head: Link, s: Links, d: set<Link>, k: nat)
    requires Distinct(s) && k < |s| && Circle([head] + Minus(s, All(Picked(s[..k], d))))
    ensures s[k].next == After([head] + s, k + 1) && s[k] !in Picked(s[..k], d)
    ensures Picked(s[..k + 1], d) == if s[k] in d then Picked(s[..k], d) + [s[k]] else Picked(s[..k], d)
  {
    hide Circle, Minus;
    PickedAre(s[..k], d);
    forall x | x in s[k..] ensures x !in All(Picked(s[..k], d)) {
      assert x !in s[..k];
    }
    assert s[k] in s[k..];
    NextThere(head, s, All(Picked(s[..k], d)), k);
    PickedNext(s, k, d);
  }

  lemma BusyAhead(head: Link, b: Books, d: set<Link>, k: nat)
    requires Kept(b) && k < |b.busy|
    requires Circle([head] + Purged(b, Picked(b.busy[..k], d)).busy)
    ensures b.busy[k].next == After([head] + b.busy, k + 1) && b.busy[k] !in Picked(b.busy[..k], d)
    ensures b.busy[k] in b.conns && b.busy[k] in Purged(b, Picked(b.busy[..k], d)).conns
    ensures Picked(b.busy[..k + 1], d) == if b.busy[k] in d
        then Picked(b.busy[..k], d) + [b.busy[k]] else Picked(b.busy[..k], d)
  {
    hide Circle;
    InBooks(b, b.busy[k]);
    Ahead(head, b.busy, d, k);
  }

  lemma SameLinks(h: Link, s: Links, x: Link, g: Link, t: Links)
    requires x in s
    ensures All([h] + Minus(s, {x})) + All([g] + (t + [x])) == All([h] + s) + All([g] + t)
  {
    AllAppend([h], s);
    AllAppend([h], Minus(s, {x}));
    AllAppend([g] + t, [x]);
    assert [g] + (t + [x]) == [g] + t + [x];
  }

  lemma SlotKept(b: Books, x: Link)
    requires Kept(b) && x !in b.busy && x !in b.av
    ensures Kept(b.(av := b.av + [x], conns := b.conns[x := Conn(-1, AVAILABLE, 0)]))
  {
    AllAppend(b.av, [x]);
  }
}
