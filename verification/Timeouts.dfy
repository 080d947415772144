/** A worker's session list and the sweep that closes what has waited too long. */
module Timeouts {
  import opened List
  import opened Queues
  import opened Scheduler

  ghost predicate OneSessionEach(all: Links, data: map<Link, Session>) {
    forall x, y :: x in all && y in all && x in data && y in data && x != y ==> data[x].socket != data[y].socket
  }

  class Sessions {
    const head: Link
    /** The session record around each link. */
    var data: map<Link, Session>
    ghost var all: Links

    ghost function Footprint(): set<Link>
      reads this
    {
      All([head] + all)
    }

    ghost predicate Valid()
      reads this, Footprint()
    {
      Circle([head] + all) && data.Keys == All(all) && OneSessionEach(all, data)
    }

    constructor ()
      ensures Valid() && all == [] && fresh(Footprint())
    {
      head := new Link();
      data := map[];
      all := [];
      new;
      Init(head);
      assert [head] + all == [head];
    }

    lemma NoLink()
      ensures forall ns: Links, o: object :: o in All(ns) ==> o != this
    {}

    /** The session of a socket, found along the list. */
    method Get(fd: int) returns (found: Link?, ghost k: nat)
      requires Valid()
      ensures found == null ==> forall x :: x in all ==> data[x].socket != fd
      ensures found != null ==> k < |all| && all[k] == found && found in data && data[found].socket == fd
    {
      hide Circle, After, Distinct, OneSessionEach;
      ghost var ns := [head] + all;
      DistinctLinks(ns);
      FollowLinks(ns, 0);
      k := 0;
      var curr := head.next;
      while curr != head
        invariant Circle(ns) && 0 <= k <= |all| && curr == After(ns, k)
        invariant forall i :: 0 <= i < k ==> data[all[i]].socket != fd
        decreases |all| - k
      {
        RoundEnds(ns, k);
        assert curr == all[k] && all[k] in All(all);
        if data[curr].socket == fd {
          return curr, k;
        }
        FollowLinks(ns, k + 1);
        curr := curr.next;
        k := k + 1;
      }
      RoundEnds(ns, k);
      found := null;
    }

    /** A new session, last in the list; its clock starts when the connection arrived. */
    method Create(fd: int, arrive: int) returns (link: Link)
      requires Valid() && forall x :: x in all ==> data[x].socket != fd
      modifies this, Footprint()
      ensures Valid() && fresh(link) && Footprint() == old(Footprint()) + {link}
      ensures all == old(all) + [link] && data == old(data)[link := Session(fd, INCOMPLETE, arrive, 0)]
    {
      hide Circle, OneSessionEach;
      NoLink();
      ghost var ns := [head] + all;
      AllAppend([head], all);
      link := new Link();
      DistinctLinks(ns);
      CreatedOk(all, data, link, Session(fd, INCOMPLETE, arrive, 0));
      Add(link, head, ns);
      data := data[link := Session(fd, INCOMPLETE, arrive, 0)];
      all := all + [link];
      assert ns + [link] == [head] + all;
      AllAppend(ns, [link]);
    }

    /** The request of a session has arrived whole: only its status changes. */
    method Complete(link: Link)
      requires Valid() && link in all
      modifies this`data
      ensures Valid() && link in old(data) && data == old(data)[link := old(data)[link].(status := COMPLETED)]
    {
      hide Circle;
      NoLink();
      assert link in All(all);
      data := data[link := data[link].(status := COMPLETED)];
    }

    /** mk_request_ka_next: the client may send another request, and its clock starts again. */
    method NextRequest(link: Link, now: int)
      requires Valid() && link in all
      modifies this`data
      ensures Valid() && link in old(data)
      ensures data == old(data)[link := Session(old(data)[link].socket, INCOMPLETE, now, old(data)[link].requests + 1)]
    {
      hide Circle;
      NoLink();
      assert link in All(all);
      data := data[link := data[link].(status := INCOMPLETE, init := now, requests := data[link].requests + 1)];
    }

    /** The session of that socket leaves the list and its memory is freed. */
    method Remove(fd: int)
      requires Valid()
      modifies this, Footprint()
      ensures Valid() && Footprint() <= old(Footprint())
      ensures forall x :: x in old(all) && old(data)[x].socket == fd ==>
          all == Minus(old(all), {x}) && data == old(data) - {x}
      ensures (forall x :: x in old(all) ==> old(data)[x].socket != fd) ==> all == old(all) && data == old(data)
    {
      var found; ghost var k;
      found, k := Get(fd);
      if found != null {
        Unlink(found, k);
      }
    }

    method Unlink(link: Link, ghost k: nat)
      requires Valid() && k < |all| && all[k] == link
      modifies this, Footprint()
      ensures Valid() && Footprint() <= old(Footprint())
      ensures all == Minus(old(all), {link}) && data == old(data) - {link}
    {
      hide Circle, Minus;
      NoLink();
      ghost var ns := [head] + all;
      DistinctLinks(ns);
      TailDistinct(head, all);
      WithoutIsMinus(all, k);
      Del(link, ns, k + 1);
      assert Without(ns, k + 1) == [head] + Without(all, k);
      data := data - {link};
      all := Without(all, k);
      AllAppend([head], all);
      AllAppend([head], old(all));
    }
  }

  lemma CreatedOk(all: Links, data: map<Link, Session>, x: Link, s: Session)
    requires data.Keys == All(all) && OneSessionEach(all, data) && x !in all
    requires forall y :: y in all ==> data[y].socket != s.socket
    ensures data[x := s].Keys == All(all + [x]) && OneSessionEach(all + [x], data[x := s])
  {
    AllAppend(all, [x]);
  }

  lemma TailDistinct(h: Link, s: Links)
    requires Distinct([h] + s)
    ensures Distinct(s)
  {
    forall i, j | 0 <= i < j < |s| ensures s[i] != s[j] {
      assert s[i] == ([h] + s)[i + 1] && s[j] == ([h] + s)[j + 1];
    }
  }

  /** The sessions that wait too long. */
  ghost function Lapsed(data: map<Link, Session>, now: int, timeout: int, keepAlive: int): set<Link> {
    set x | x in data && SessionExpired(data[x], now, timeout, keepAlive)
  }

  ghost function Sockets(gone: Links, data: map<Link, Session>): set<int> {
    set x | x in gone && x in data :: data[x].socket
  }

  /** Exactly the busy slots that serve one of the sockets are dead. */
  ghost predicate Matched(b: Books, dead: Links, sockets: set<int>) {
    && All(dead) <= All(b.busy) && Distinct(dead)
    && forall x :: x in b.busy && x in b.conns ==> (x in dead <==> b.conns[x].socket in sockets)
  }

  lemma Unserved(b: Books, dead: Links, sockets: set<int>, fd: int)
    requires Kept(b) && Matched(b, dead, sockets) && forall y :: !Serves(Purged(b, dead), y, fd)
    ensures Matched(b, dead, sockets + {fd})
  {
    forall x | x in b.busy && x in b.conns && b.conns[x].socket == fd ensures x in dead {
      if x !in dead {
        StillThere(b, dead, x);
        assert Serves(Purged(b, dead), x, fd);
      }
    }
  }

  lemma OneMoreDead(b: Books, dead: Links, sockets: set<int>, fd: int, x: Link)
    requires Kept(b) && Matched(b, dead, sockets) && Serves(Purged(b, dead), x, fd)
    ensures x in b.busy && x in b.conns && x !in dead && Matched(b, dead + [x], sockets + {fd})
  {
    assert x in All(Purged(b, dead).busy);
    StillThere(b, dead, x);
    AllAppend(dead, [x]);
    forall y | y in b.busy && y in b.conns && b.conns[y].socket == fd ensures y == x {
      assert Serves(b, y, fd) && Serves(b, x, fd);
      OnlyOne(b, x, y);
    }
  }

  /** The connection of one socket is closed, if it is still there. */
  method CloseConnection(w: Worker, fd: int, ghost was: Books, ghost dead: Links, ghost sockets: set<int>)
    returns (ghost more: Links)
    requires w.Valid() && Kept(was) && w.Now() == Purged(was, dead) && Matched(was, dead, sockets)
    modifies w, w.Footprint()
    ensures w.Valid() && w.Footprint() == old(w.Footprint())
    ensures w.Now() == Purged(was, more) && Matched(was, more, sockets + {fd})
  {
    hide Circle, Kept, Minus, Purged, Matched;
    var r; ghost var x;
    r, x := w.RemoveClient(fd);
    if r == 0 {
      OneMoreDead(was, dead, sockets, fd, x);
      PurgeNext(was, dead, x);
      more := dead + [x];
    } else {
      Unserved(was, dead, sockets, fd);
      more := dead;
    }
  }

  /** The session list as a value. */
  datatype Table = Table(all: Links, data: map<Link, Session>)

  ghost predicate TableOk(t: Table) {
    Distinct(t.all) && t.data.Keys == All(t.all) && OneSessionEach(t.all, t.data)
  }

  ghost function Rid(t: Table, gone: Links): Table {
    Table(Minus(t.all, All(gone)), t.data - All(gone))
  }

  lemma RidHas(t: Table, gone: Links, x: Link)
    requires TableOk(t) && x in t.all && x !in gone
    ensures x in t.data && x in Rid(t, gone).data && Rid(t, gone).data[x] == t.data[x] && x in Rid(t, gone).all
  {
    hide Minus, OneSessionEach;
    assert x in All(t.all);
    assert x in All(Rid(t, gone).all);
  }

  /** One session more off a thinned list. */
  lemma RidNext(t: Table, gone: Links, x: Link)
    ensures Table(Minus(Rid(t, gone).all, {x}), Rid(t, gone).data - {x}) == Rid(t, gone + [x])
  {
    hide Minus;
    AllAppend(gone, [x]);
    assert All([x]) == {x};
    MinusTwice(t.all, All(gone), {x});
    assert t.data - All(gone) - {x} == t.data - (All(gone) + {x});
  }

  lemma RidNothing(t: Table)
    ensures Rid(t, []) == t
  {
    MinusNone(t.all, All([]));
    assert t.data - All([]) == t.data;
  }

  lemma SocketsNext(gone: Links, data: map<Link, Session>, x: Link)
    requires x in data
    ensures Sockets(gone + [x], data) == Sockets(gone, data) + {data[x].socket}
  {
    forall y | y in gone && y in data ensures data[y].socket in Sockets(gone + [x], data) {
      assert y in gone + [x];
    }
    assert x in gone + [x];
  }

  /** One session met by the sweep: it and its connection go exactly if it has lapsed. */
  method SweepSession(w: Worker, ss: Sessions, curr: Link, now: int, timeout: int, keepAlive: int,
                      ghost was: Books, ghost dead: Links, ghost t: Table, ghost gone: Links)
    returns (ghost dead': Links, ghost gone': Links)
    requires w.Valid() && Kept(was) && w.Now() == Purged(was, dead) && Matched(was, dead, Sockets(gone, t.data))
    requires ss.Valid() && TableOk(t) && Table(ss.all, ss.data) == Rid(t, gone)
    requires w.Footprint() !! ss.Footprint() && curr in t.all && curr !in gone && curr in t.data
    modifies w, ss, w.Footprint(), ss.Footprint()
    ensures w.Valid() && w.Footprint() == old(w.Footprint())
    ensures ss.Valid() && ss.Footprint() <= old(ss.Footprint())
    ensures w.Now() == Purged(was, dead') && Matched(was, dead', Sockets(gone', t.data))
    ensures Table(ss.all, ss.data) == Rid(t, gone')
    ensures gone' == if SessionExpired(t.data[curr], now, timeout, keepAlive) then gone + [curr] else gone
  {
    hide Circle, Kept, Minus, Purged, Matched, Rid, TableOk, Sockets, OneSessionEach;
    RidHas(t, gone, curr);
    RidNext(t, gone, curr);
    SocketsNext(gone, t.data, curr);
    assert ss.data[curr] == t.data[curr] && curr in ss.all;
    if SessionExpired(ss.data[curr], now, timeout, keepAlive) {
      var fd := ss.data[curr].socket;
      dead' := CloseConnection(w, fd, was, dead, Sockets(gone, t.data));
      ss.Remove(fd);
      gone' := gone + [curr];
    } else {
      dead', gone' := dead, gone;
    }
  }

  /** The session list has reached place `k`. */
  lemma TableAhead(head: Link, t: Table, d: set<Link>, k: nat)
    requires TableOk(t) && k < |t.all| && Circle([head] + Rid(t, Picked(t.all[..k], d)).all)
    ensures t.all[k].next == After([head] + t.all, k + 1) && t.all[k] !in Picked(t.all[..k], d) && t.all[k] in t.data
    ensures Picked(t.all[..k + 1], d) == if t.all[k] in d
        then Picked(t.all[..k], d) + [t.all[k]] else Picked(t.all[..k], d)
  {
    hide Circle, OneSessionEach;
    assert t.all[k] in All(t.all);
    Ahead(head, t.all, d, k);
  }

  /** The second half of the sweep, along the session list while it shrinks. */
  method SweepSessions(w: Worker, ss: Sessions, now: int, timeout: int, keepAlive: int)
    returns (ghost dead: Links, ghost gone: Links)
    requires w.Valid() && ss.Valid() && w.Footprint() !! ss.Footprint()
    modifies w, ss, w.Footprint(), ss.Footprint()
    ensures w.Valid() && ss.Valid() && w.Footprint() == old(w.Footprint()) && ss.Footprint() <= old(ss.Footprint())
    ensures gone == Picked(old(ss.all), Lapsed(old(ss.data), now, timeout, keepAlive))
    ensures Table(ss.all, ss.data) == Rid(old(Table(ss.all, ss.data)), gone)
    ensures w.Now() == Purged(old(w.Now()), dead) && Matched(old(w.Now()), dead, Sockets(gone, old(ss.data)))
  {
    hide Circle, Kept, Minus, Purged, Matched, Rid, OneSessionEach, After, Distinct;
    ghost var was, t := w.Now(), Table(ss.all, ss.data);
    ghost var ns, k := [ss.head] + ss.all, 0;
    ghost var lapsed := Lapsed(ss.data, now, timeout, keepAlive);
    PurgeNothing(was);
    RidNothing(t);
    NoneMatched(was, t.data);
    dead, gone := [], [];
    DistinctLinks(ns);
    TailDistinct(ss.head, ss.all);
    FollowLinks(ns, 0);
    var curr := ss.head.next;
    var n := curr.next;
    assert TableOk(t);
    hide TableOk, Sockets;
    while curr != ss.head
      invariant 0 <= k <= |t.all| && curr == After(ns, k) && n == curr.next
      invariant w.Valid() && ss.Valid() && w.Footprint() == old(w.Footprint()) && ss.Footprint() <= old(ss.Footprint())
      invariant w.Now() == Purged(was, dead) && Matched(was, dead, Sockets(gone, t.data))
      invariant Table(ss.all, ss.data) == Rid(t, gone) && TableOk(t) && gone == Picked(t.all[..k], lapsed)
      decreases |t.all| - k
    {
      RoundEnds(ns, k);
      TableAhead(ss.head, t, lapsed, k);
      dead, gone := SweepSession(w, ss, curr, now, timeout, keepAlive, was, dead, t, gone);
      k := k + 1;
      curr := n;
      n := curr.next;
    }
    RoundEnds(ns, k);
    assert t.all[..k] == t.all;
  }

  lemma NoneMatched(b: Books, data: map<Link, Session>)
    ensures Matched(b, [], Sockets([], data))
  {}

  lemma PurgeTwice(b: Books, d: Links, e: Links)
    requires Kept(b) && All(e) <= All(Purged(b, d).busy)
    ensures Purged(Purged(b, d), e) == Purged(b, d + e)
  {
    hide Minus;
    AllAppend(d, e);
    MinusTwice(b.busy, All(d), All(e));
    assert b.av + d + e == b.av + (d + e);
    assert FreedIn(FreedIn(b.conns, All(d)), All(e)) == FreedIn(b.conns, All(d) + All(e));
  }

  /** A busy slot must be closed: it is pending and late, or its session is. */
  ghost predicate Doomed(c: Conn, t: Table, now: int, timeout: int, keepAlive: int) {
    || ConnExpired(c, now, timeout)
    || exists x :: x in t.all && x in t.data && SessionExpired(t.data[x], now, timeout, keepAlive)
        && t.data[x].socket == c.socket
  }

  /** The two halves together close exactly the doomed. */
  lemma BothHalves(b: Books, t: Table, first: Links, gone: Links, second: Links, now: int, timeout: int, keepAlive: int)
    requires Kept(b) && TableOk(t)
    requires first == Picked(b.busy, Stale(b.conns, now, timeout))
    requires gone == Picked(t.all, Lapsed(t.data, now, timeout, keepAlive))
    requires Matched(Purged(b, first), second, Sockets(gone, t.data))
    ensures Purged(Purged(b, first), second) == Purged(b, first + second)
    ensures Closes(b, first + second, t, now, timeout, keepAlive)
  {
    PurgeTwice(b, first, second);
    PickedAre(b.busy, Stale(b.conns, now, timeout));
    PickedAre(t.all, Lapsed(t.data, now, timeout, keepAlive));
    PickedDistinct(b.busy, Stale(b.conns, now, timeout));
    AllAppend(first, second);
    DistinctTogether(first, second);
    hide Minus, FreedIn, Doomed, ConnExpired;
    forall x | x in b.busy && x in b.conns
      ensures x in first + second <==> Doomed(b.conns[x], t, now, timeout, keepAlive)
    {
      DoomedIff(b, t, first, gone, second, now, timeout, keepAlive, x);
    }
  }

  lemma DistinctTogether(a: Links, b: Links)
    requires Distinct(a) && Distinct(b) && All(a) !! All(b)
    ensures Distinct(a + b)
  {
    forall i, j | 0 <= i < j < |a + b| ensures (a + b)[i] != (a + b)[j] {
      assert i < |a| ==> a[i] in All(a);
      assert j >= |a| ==> b[j - |a|] in All(b);
    }
  }

  /** Exactly the doomed slots are in `dead`, each once. */
  ghost predicate Closes(b: Books, dead: Links, t: Table, now: int, timeout: int, keepAlive: int) {
    && All(dead) <= All(b.busy) && Distinct(dead)
    && forall x :: x in b.busy && x in b.conns ==> (x in dead <==> Doomed(b.conns[x], t, now, timeout, keepAlive))
  }

  lemma DoomedIff(b: Books, t: Table, first: Links, gone: Links, second: Links, now: int, timeout: int,
      keepAlive: int, x: Link)
    requires Kept(b) && TableOk(t) && x in b.busy && x in b.conns
    requires All(first) == All(b.busy) * Stale(b.conns, now, timeout)
    requires All(gone) == All(t.all) * Lapsed(t.data, now, timeout, keepAlive)
    requires Matched(Purged(b, first), second, Sockets(gone, t.data))
    ensures x in first + second <==> Doomed(b.conns[x], t, now, timeout, keepAlive)
  {
    hide Minus;
    assert x in first <==> x in All(first);
    if x !in first {
      StillThere(b, first, x);
      var fd := b.conns[x].socket;
      assert x in second <==> fd in Sockets(gone, t.data);
      if fd in Sockets(gone, t.data) {
        var y :| y in gone && y in t.data && t.data[y].socket == fd;
        assert y in All(gone);
      }
      if y :| y in t.all && y in t.data && t.data[y].socket == fd
              && SessionExpired(t.data[y], now, timeout, keepAlive) {
        assert y in All(gone);
      }
    }
  }

  lemma {:induction false} PickedDistinct(s: Links, d: set<Link>)
    requires Distinct(s)
    ensures Distinct(Picked(s, d))
  {
    if s != [] {
      PickedDistinct(s[..|s| - 1], d);
      PickedAre(s[..|s| - 1], d);
      var r := Picked(s[..|s| - 1], d);
      assert s[|s| - 1] !in All(r);
      assert forall i :: 0 <= i < |r| ==> r[i] in All(r);
    }
  }

  /**
    * The whole sweep: exactly the doomed connections go back to the available queue,
    * each counted once; exactly the lapsed sessions go; all others keep their order.
    */
  method CheckTimeouts(w: Worker, ss: Sessions, now: int, timeout: int, keepAlive: int) returns (ghost dead: Links)
    requires w.Valid() && ss.Valid() && w.Footprint() !! ss.Footprint()
    modifies w, ss, w.Footprint(), ss.Footprint()
    ensures w.Valid() && ss.Valid() && w.Footprint() !! ss.Footprint()
    ensures w.Now() == Purged(old(w.Now()), dead)
    ensures Closes(old(w.Now()), dead, old(Table(ss.all, ss.data)), now, timeout, keepAlive)
    ensures ss.all == Minus(old(ss.all), Lapsed(old(ss.data), now, timeout, keepAlive))
    ensures ss.data == old(ss.data) - Lapsed(old(ss.data), now, timeout, keepAlive)
    ensures ExactlyTheLate(old(w.Now()), old(Table(ss.all, ss.data)), w.busy, ss.all, now, timeout, keepAlive)
  {
    hide Circle, Kept, Minus, Purged, Matched, Closes, OneSessionEach, ExactlyTheLate;
    ghost var was, t := w.Now(), Table(ss.all, ss.data);
    ghost var lapsed := Lapsed(ss.data, now, timeout, keepAlive);
    DistinctLinks([ss.head] + ss.all);
    TailDistinct(ss.head, ss.all);
    ghost var second, gone;
    dead := w.SweepPending(now, timeout);
    second, gone := SweepSessions(w, ss, now, timeout, keepAlive);
    BothHalves(was, t, dead, gone, second, now, timeout, keepAlive);
    RidLapsed(t, now, timeout, keepAlive);
    dead := dead + second;
    LateInPlainTimes(was, t, dead, now, timeout, keepAlive);
  }

  // ----- the sweep in plain times ---------------------------------------------------------------------

  /** The sum of a time and a waiting time fits an `int`. */
  predicate Fits32(start: int, wait: int) { -0x8000_0000 <= start + wait < 0x8000_0000 }

  /** The request has been awaited too long: the first for `timeout`, a later one for `keepAlive`. */
  predicate SessionLate(s: Session, now: int, timeout: int, keepAlive: int) {
    s.status == -1 && now - s.init >= if s.requests == 0 then timeout else keepAlive
  }

  predicate ConnLate(c: Conn, now: int, timeout: int) { c.status == 0 && now - c.arrive >= timeout }

  /** No sum that concerns the session leaves the `int`. */
  predicate PlainSession(s: Session, timeout: int, keepAlive: int) {
    Fits32(s.init, timeout) && Fits32(s.init, keepAlive)
  }

  ghost predicate PlainConn(c: Conn, t: Table, timeout: int, keepAlive: int) {
    && Fits32(c.arrive, timeout)
    && forall y :: y in t.data && t.data[y].socket == c.socket ==> PlainSession(t.data[y], timeout, keepAlive)
  }

  /**
    * What a sweep leaves of the busy queue and of the session list: all but the sessions that are late,
    * and all but the connections that are late or whose session is.
    */
  ghost predicate ExactlyTheLate(b: Books, t: Table, busy: Links, all: Links, now: int, timeout: int, keepAlive: int) {
    && (forall y :: y in t.all && y in t.data && PlainSession(t.data[y], timeout, keepAlive) ==>
          (y in all <==> !SessionLate(t.data[y], now, timeout, keepAlive)))
    && (forall x :: x in b.busy && x in b.conns && PlainConn(b.conns[x], t, timeout, keepAlive) ==>
          (x in busy <==> !(ConnLate(b.conns[x], now, timeout)
                            || SessionOfLate(b.conns[x], t, now, timeout, keepAlive))))
  }

  ghost predicate SessionOfLate(c: Conn, t: Table, now: int, timeout: int, keepAlive: int) {
    exists y :: y in t.all && y in t.data && t.data[y].socket == c.socket
                && SessionLate(t.data[y], now, timeout, keepAlive)
  }

  /** An `int` keeps a number modulo 2^32, and exactly if it fits. */
  lemma Int32Keeps(x: int)
    ensures -0x8000_0000 <= Int32(x) < 0x8000_0000 && (x - Int32(x)) % 0x1_0000_0000 == 0
    ensures Int32(x) == x <==> -0x8000_0000 <= x < 0x8000_0000
  {}

  lemma PlainExpired(s: Session, c: Conn, now: int, timeout: int, keepAlive: int)
    ensures PlainSession(s, timeout, keepAlive) ==>
              (SessionExpired(s, now, timeout, keepAlive) <==> SessionLate(s, now, timeout, keepAlive))
    ensures Fits32(c.arrive, timeout) ==> (ConnExpired(c, now, timeout) <==> ConnLate(c, now, timeout))
  {
    Int32Keeps(s.init + timeout);
    Int32Keeps(s.init + keepAlive);
    Int32Keeps(c.arrive + timeout);
    hide Int32;
  }

  lemma PlainDoomed(c: Conn, t: Table, now: int, timeout: int, keepAlive: int)
    requires PlainConn(c, t, timeout, keepAlive)
    ensures Doomed(c, t, now, timeout, keepAlive)
       <==> ConnLate(c, now, timeout) || SessionOfLate(c, t, now, timeout, keepAlive)
  {
    PlainExpired(Session(0, 0, 0, 0), c, now, timeout, keepAlive);
    forall y | y in t.data && t.data[y].socket == c.socket
      ensures SessionExpired(t.data[y], now, timeout, keepAlive) <==> SessionLate(t.data[y], now, timeout, keepAlive)
    {
      PlainExpired(t.data[y], c, now, timeout, keepAlive);
    }
    hide SessionExpired, SessionLate, ConnExpired, ConnLate, Fits32, PlainSession;
  }

  lemma LateInPlainTimes(b: Books, t: Table, dead: Links, now: int, timeout: int, keepAlive: int)
    requires TableOk(t) && Closes(b, dead, t, now, timeout, keepAlive)
    ensures ExactlyTheLate(b, t, Purged(b, dead).busy, Minus(t.all, Lapsed(t.data, now, timeout, keepAlive)),
                           now, timeout, keepAlive)
  {
    hide Minus, Doomed, ConnLate, SessionOfLate, SessionLate, SessionExpired, PlainConn;
    var lapsed := Lapsed(t.data, now, timeout, keepAlive);
    var all, busy := Minus(t.all, lapsed), Purged(b, dead).busy;
    forall y | y in t.all && y in t.data && PlainSession(t.data[y], timeout, keepAlive)
      ensures y in all <==> !SessionLate(t.data[y], now, timeout, keepAlive)
    {
      PlainExpired(t.data[y], Conn(0, 0, 0), now, timeout, keepAlive);
      assert y in All(t.all) && (y in all <==> y in All(all));
    }
    forall x | x in b.busy && x in b.conns && PlainConn(b.conns[x], t, timeout, keepAlive)
      ensures x in busy <==> !(ConnLate(b.conns[x], now, timeout)
                               || SessionOfLate(b.conns[x], t, now, timeout, keepAlive))
    {
      PlainDoomed(b.conns[x], t, now, timeout, keepAlive);
      assert x in All(b.busy) && (x in busy <==> x in All(busy)) && (x in dead <==> x in All(dead));
    }
  }

  lemma RidLapsed(t: Table, now: int, timeout: int, keepAlive: int)
    requires TableOk(t)
    ensures Rid(t, Picked(t.all, Lapsed(t.data, now, timeout, keepAlive)))
         == Table(Minus(t.all, Lapsed(t.data, now, timeout, keepAlive)), t.data - Lapsed(t.data, now, timeout,
             keepAlive))
  {
    hide Minus, OneSessionEach;
    var lapsed := Lapsed(t.data, now, timeout, keepAlive);
    PickedAre(t.all, lapsed);
    assert All(t.all) * lapsed == lapsed;
  }

  // ----- sessions that outlive their connection -------------------------------------------------------

  datatype Sweep = Sweep(now: int, timeout: int, keepAlive: int)

  /** What a sweep leaves of the session list. */
  ghost function SweptOnce(t: Table, w: Sweep): Table {
    var gone := Lapsed(t.data, w.now, w.timeout, w.keepAlive);
    Table(Minus(t.all, gone), t.data - gone)
  }

  ghost function Swept(t: Table, sweeps: seq<Sweep>): Table
    decreases |sweeps|
  {
    if sweeps == [] then t else Swept(SweptOnce(t, sweeps[0]), sweeps[1..])
  }

  /**
    * A waiting connection and the session made for it, which took over its time of arrival and
    * has served nothing yet. When a sweep closes the connection, the session stays behind if and
    * only if its request has already arrived whole.
    */
  lemma LeftBehindIff(b: Books, t: Table, dead: Links, x: Link, y: Link, w: Sweep)
    requires TableOk(t) && Closes(b, dead, t, w.now, w.timeout, w.keepAlive)
    requires x in b.busy && x in b.conns && b.conns[x].status == PENDING && x in dead
    requires y in t.all && y in t.data && t.data[y].socket == b.conns[x].socket
    requires t.data[y].init == b.conns[x].arrive && t.data[y].requests == 0
    ensures y in SweptOnce(t, w).all <==> t.data[y].status != INCOMPLETE
  {
    var c, gone := b.conns[x], Lapsed(t.data, w.now, w.timeout, w.keepAlive);
    assert Doomed(c, t, w.now, w.timeout, w.keepAlive);
    if !ConnExpired(c, w.now, w.timeout) {
      var z :| z in t.all && z in t.data && SessionExpired(t.data[z], w.now, w.timeout, w.keepAlive)
               && t.data[z].socket == c.socket;
      assert z == y;
    }
    assert y in gone <==> t.data[y].status == INCOMPLETE;
    assert y in SweptOnce(t, w).all <==> y in All(SweptOnce(t, w).all);
    assert y in All(t.all);
  }

  /** And no later sweep removes it: a session whose request has arrived whole never lapses. */
  lemma {:induction false} NeverLapses(t: Table, sweeps: seq<Sweep>, y: Link)
    requires y in t.all && y in t.data && t.data[y].status != INCOMPLETE
    ensures y in Swept(t, sweeps).all && y in Swept(t, sweeps).data && Swept(t, sweeps).data[y] == t.data[y]
    decreases |sweeps|
  {
    if sweeps != [] {
      var u := SweptOnce(t, sweeps[0]);
      assert y in All(t.all);
      assert y in All(u.all);
      NeverLapses(u, sweeps[1..], y);
    }
  }

  /** A client that came at 0 and whose request is whole, swept at 100 with a timeout of 15. */
  method LeftBehindExample() returns (w: Worker, ss: Sessions, link: Link)
    ensures w.busy == [] && w.closed == 1 && ss.all == [link] && link in ss.data && ss.data[link].socket == 5
  {
    hide Circle, Kept, OneSessionEach, Closes, Purged, Minus;
    w := OneClient();
    ss, link := OneSession();
    ghost var b, t := w.Now(), Table(ss.all, ss.data);
    ghost var dead := CheckTimeouts(w, ss, 100, 15, 5);
    ExampleDead(b, t, dead, b.busy[0], link);
  }

  /**
    * A client that has been answered once and waits since 0, swept at 10 with a timeout of 15 and a
    * keep-alive timeout of 5: connection and session go. Before its first answer both would stay.
    */
  method KeptAliveExample(answered: bool) returns (w: Worker, ss: Sessions, link: Link)
    ensures if answered then w.busy == [] && ss.all == [] else |w.busy| == 1 && ss.all == [link]
  {
    hide Circle, Kept, OneSessionEach, Closes, Purged, Minus, Lapsed, ExactlyTheLate;
    w := OneClient();
    ss, link := WaitingSession(answered);
    ghost var b, t := w.Now(), Table(ss.all, ss.data);
    ghost var dead := CheckTimeouts(w, ss, 10, 15, 5);
    PurgedBusy(b, dead);
    KeptAliveLeft(b, t, All(dead), Lapsed(t.data, 10, 15, 5), link, answered);
  }

  method WaitingSession(answered: bool) returns (ss: Sessions, link: Link)
    ensures fresh(ss) && fresh(ss.Footprint()) && ss.Valid()
    ensures ss.all == [link] && ss.data == map[link := Session(5, INCOMPLETE, 0, if answered then 1 else 0)]
  {
    hide Circle, OneSessionEach;
    ss := new Sessions();
    assert ss.data.Keys == {};
    link := ss.Create(5, 0);
    if answered {
      ss.NextRequest(link, 0);
    }
  }

  lemma PurgedBusy(b: Books, dead: Links)
    ensures Purged(b, dead).busy == Minus(b.busy, All(dead))
  {}

  lemma KeptAliveLeft(b: Books, t: Table, d: set<Link>, e: set<Link>, y: Link, answered: bool)
    requires |b.busy| == 1 && b.busy[0] in b.conns && b.conns[b.busy[0]] == Conn(5, PENDING, 0)
    requires t == Table([y], map[y := Session(5, INCOMPLETE, 0, if answered then 1 else 0)])
    requires ExactlyTheLate(b, t, Minus(b.busy, d), Minus(t.all, e), 10, 15, 5)
    ensures Minus(b.busy, d) == (if answered then [] else b.busy)
    ensures Minus(t.all, e) == (if answered then [] else [y])
  {
    hide Minus;
    var c := b.conns[b.busy[0]];
    assert SessionLate(t.data[y], 10, 15, 5) <==> answered;
    assert SessionOfLate(c, t, 10, 15, 5) <==> answered;
    assert y in Minus(t.all, e) <==> !answered;
    assert b.busy[0] in Minus(b.busy, d) <==> !answered;
    OneOrNone(b.busy, d);
    OneOrNone(t.all, e);
  }

  lemma OneOrNone(s: Links, d: set<Link>)
    requires |s| == 1
    ensures Minus(s, d) == if s[0] in Minus(s, d) then s else []
  {
    assert s == [s[0]] && s[..0] == [];
    assert Minus([], d) == [];
  }

  method OneClient() returns (w: Worker)
    ensures fresh(w) && fresh(w.Footprint()) && w.Valid() && w.closed == 0
    ensures |w.busy| == 1 && w.busy[0] in w.conns && w.conns[w.busy[0]] == Conn(5, PENDING, 0)
  {
    hide Circle, Kept;
    w := new Worker(1);
    NotServing(w.Now(), 5);
    var r := w.RegisterClient(5, 0, false);
  }

  method OneSession() returns (ss: Sessions, link: Link)
    ensures fresh(ss) && fresh(ss.Footprint()) && ss.Valid()
    ensures ss.all == [link] && ss.data == map[link := Session(5, COMPLETED, 0, 0)]
  {
    hide Circle, OneSessionEach;
    ss := new Sessions();
    assert ss.data.Keys == {};
    link := ss.Create(5, 0);
    ss.Complete(link);
  }

  lemma NotServing(b: Books, fd: int)
    requires b.busy == []
    ensures forall x :: !Serves(b, x, fd)
  {}

  lemma OnlyOneLink(d: Links, x: Link)
    requires Distinct(d) && All(d) == {x}
    ensures d == [x]
  {
    assert x in d;
    assert d[0] in All(d) && d[|d| - 1] in All(d);
  }

  lemma ExampleDead(b: Books, t: Table, dead: Links, x: Link, y: Link)
    requires b.busy == [x] && x in b.conns && b.conns[x] == Conn(5, PENDING, 0) && b.closed == 0
    requires t == Table([y], map[y := Session(5, COMPLETED, 0, 0)]) && Closes(b, dead, t, 100, 15, 5)
    ensures Purged(b, dead).busy == [] && Purged(b, dead).closed == 1
    ensures Minus(t.all, Lapsed(t.data, 100, 15, 5)) == [y] && t.data - Lapsed(t.data, 100, 15, 5) == t.data
  {
    assert ConnExpired(b.conns[x], 100, 15);
    assert x in dead;
    assert All(b.busy) == {x};
    assert x in All(dead);
    OnlyOneLink(dead, x);
    assert Minus([x], {x}) == [];
    assert All(dead) == {x};
    var gone := Lapsed(t.data, 100, 15, 5);
    assert gone == {};
    MinusNone(t.all, gone);
  }
}
