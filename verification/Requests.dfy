/** plugins/fastcgi/request.c: requests, the request list, its clock hands and its lookup cache. */
module Requests {
  import opened Bytes
  import opened Chunks
  import opened Ring

  datatype ReqState = Available | Assigned | Sent | StreamClosed | Ended | Finished | Failed

  /** struct request; `cap` is the size of the I/O vector, `iov` its used part. */
  datatype Request = Request(
    state: ReqState, sleeping: bool, headersSent: bool, fd: int, fcgiFd: int, clockId: nat,
    iov: Iov, cap: nat)

  const IOV_SIZE: nat := 4

  /** request_init. */
  const NEW_REQUEST := Request(Available, false, false, -1, -1, 0, [], IOV_SIZE)

  /** What request_reset leaves of a request; the references of its vector are given up apart. */
  function Reset(r: Request): Request {
    Request(Available, false, false, -1, -1, 0, [], r.cap)
  }

  /** The transitions request_set_state allows. */
  predicate MayBecome(from: ReqState, to: ReqState) {
    match to
    case Available => from == Finished
    case Assigned => from == Available || from == Finished
    case Sent => from == Assigned
    case StreamClosed => from == Sent
    case Ended => from == StreamClosed || from == Failed || from == Sent
    case Finished => from == Ended
    case Failed => true
  }

  /** No two requests hold the same client socket. */
  ghost predicate UniqueFds(rs: seq<Request>) {
    forall i, j :: 0 <= i < |rs| && 0 <= j < |rs| && rs[i].fd == rs[j].fd && rs[i].fd >= 0 ==> i == j
  }

  /** Available slots are clean. */
  ghost predicate AvailableClean(rs: seq<Request>) {
    forall i :: 0 <= i < |rs| && rs[i].state == Available ==> rs[i] == Reset(rs[i])
  }

  // ----- scans --------------------------------------------------------------------------------

  /** The slot is the first of its kind in scan order from `clock`. */
  ghost predicate FirstFrom(clock: nat, size: nat, i: nat, good: set<nat>)
    requires clock < size
  {
    && i < size && i in good
    && forall j :: 0 <= j < size && j in good ==> Distance(clock, i, size) <= Distance(clock, j, size)
  }

  ghost function AvailableSlots(rs: seq<Request>): set<nat> {
    set i: nat | i < |rs| && rs[i].state == Available
  }

  ghost function AssignedSlots(rs: seq<Request>, loc: nat): set<nat> {
    set i: nat | i < |rs| && rs[i].state == Assigned && rs[i].clockId == loc
  }

  ghost function FdSlots(rs: seq<Request>, fd: int): set<nat> {
    set i: nat | i < |rs| && rs[i].fd == fd
  }

  /** After k steps from `clock` none of the visited slots was good. */
  ghost predicate Visited(clock: nat, size: nat, k: nat, good: set<nat>)
    requires clock < size
  {
    k <= size && forall j :: 0 <= j < size && j in good ==> Distance(clock, j, size) > k
  }

  lemma VisitNext(clock: nat, size: nat, k: nat, i: nat, good: set<nat>)
    requires clock < size && k < size && Visited(clock, size, k, good)
    requires IsPowerOf2(size) && i == And(Slot(clock, k, size) + 1, size - 1)
    ensures i == Slot(clock, k + 1, size) < size
    ensures i in good ==> FirstFrom(clock, size, i, good)
    ensures i !in good ==> Visited(clock, size, k + 1, good)
    ensures i == clock <==> k + 1 == size
  {
    MaskIsMod(Slot(clock, k, size) + 1, size);
    SlotStep(clock, k, size);
    DistanceOfSlot(clock, k + 1, size);
    DistanceReaches(clock, i, size);
    forall j | 0 <= j < size && j in good && i !in good ensures Distance(clock, j, size) > k + 1 {
      DistanceReaches(clock, j, size);
    }
  }

  lemma VisitStart(clock: nat, size: nat, good: set<nat>)
    requires clock < size
    ensures Slot(clock, 0, size) == clock && Visited(clock, size, 0, good)
  {
    SlotValue(clock, 0, size);
  }

  lemma VisitAll(clock: nat, size: nat, good: set<nat>)
    requires clock < size && Visited(clock, size, size, good)
    ensures forall j :: 0 <= j < size ==> j !in good
  {}

  // ----- the lookup cache ---------------------------------------------------------------------

  const CACHE_SIZE: nat := 32

  datatype CacheEntry = CacheEntry(req: Option<nat>, fd: int, fcgiFd: int, counter: nat)

  /**
   * Entries point into the list, only an entry with a request carries a socket, and of the 32 entries
   * only entry 1 is ever used.
   */
  ghost predicate CacheOk(es: seq<CacheEntry>, size: nat) {
    && |es| == CACHE_SIZE
    && (es[1].req.Some? ==> es[1].req.value < size) && (es[1].fd >= 0 ==> es[1].req.Some?)
    && forall k :: 0 <= k < |es| && k != 1 ==> es[k].req.None? && es[k].fd == -1
  }

  /** In every state of a list, the cache knows one request at most, and a socket is found in entry 1 or not at all. */
  lemma OneEntryUsed(es: seq<CacheEntry>, size: nat, fd: int, r: nat)
    requires CacheOk(es, size) && fd >= 0
    ensures |es| == 32 && EntriesOfFd(es, fd) <= {1} && EntriesOf(es, r) <= {1}
  {}

  /** request_cache_add in closed form: entry 1 is aged at most once round, and replaced when its count is used up. */
  function AgedIn(es: seq<CacheEntry>, hand: nat, q: Request, r: nat): (seq<CacheEntry>, nat)
    requires |es| == CACHE_SIZE && hand < CACHE_SIZE
  {
    var n := es[1].counter;
    if n < CACHE_SIZE then (es[1 := CacheEntry(Some(r), q.fd, q.fcgiFd, 1)], Slot(hand, n + 1, CACHE_SIZE))
    else (es[1 := es[1].(counter := n - CACHE_SIZE)], hand)
  }

  lemma CacheSized(es: seq<CacheEntry>, size: nat)
    requires CacheOk(es, size)
    ensures |es| == CACHE_SIZE
  {}

  lemma AgedOk(es: seq<CacheEntry>, size: nat, hand: nat, q: Request, r: nat)
    requires CacheOk(es, size) && r < size && hand < CACHE_SIZE
    ensures CacheOk(AgedIn(es, hand, q, r).0, size) && AgedIn(es, hand, q, r).1 < CACHE_SIZE
  {
    if es[1].counter < CACHE_SIZE {
      SlotValue(hand, es[1].counter + 1, CACHE_SIZE);
    }
  }

  /** The entries for a socket, and those for a request. */
  ghost function EntriesOfFd(es: seq<CacheEntry>, fd: int): set<nat> {
    set k: nat | k < |es| && es[k].fd == fd
  }

  ghost function EntriesOf(es: seq<CacheEntry>, r: nat): set<nat> {
    set k: nat | k < |es| && es[k].req == Some(r)
  }

  lemma CacheSizeIsPower()
    ensures IsPowerOf2(CACHE_SIZE)
  {
    assert And(32, 31) == 2 * And(16, 15) && And(16, 15) == 2 * And(8, 7) && And(8, 7) == 2 * And(4, 3);
  }

  class RequestList {
    var rs: seq<Request>
    var hands: seq<nat>            // one clock hand per location
    const idOffset: nat
    var entries: seq<CacheEntry>   // the cache
    var hand: nat                  // the cache's own clock hand

    ghost predicate Valid()
      reads this
    {
      && IsPowerOf2(|rs|) && |hands| > 0
      && (forall k :: 0 <= k < |hands| ==> hands[k] < |rs|)
      && CacheOk(entries, |rs|) && hand < CACHE_SIZE
    }

    /** request_list_init. */
    constructor (clockCount: nat, offset: nat, size: nat)
      requires IsPowerOf2(size) && clockCount > 0
      ensures Valid() && |rs| == size && |hands| == clockCount && idOffset == offset
      ensures forall k :: 0 <= k < size ==> rs[k] == NEW_REQUEST
      ensures forall k :: 0 <= k < clockCount ==> hands[k] == 0
      ensures UniqueFds(rs) && AvailableClean(rs)
    {
      rs := seq(size, _ => NEW_REQUEST);
      hands := seq(clockCount, _ => 0);
      idOffset := offset;
      entries := seq(CACHE_SIZE, _ => CacheEntry(None, -1, 0, 0));
      hand := 0;
    }

    /** get_clock_hand: zero for a location out of range. */
    function ClockHand(clockId: nat): (h: nat)
      requires Valid()
      reads this
      ensures h < |rs|
    {
      if clockId < |hands| then hands[clockId] else 0
    }

    /** request_cache_add: whatever the clock, it is entry 1 that is aged and replaced. */
    method CacheAdd(r: nat)
      requires Valid() && r < |rs|
      modifies this`entries, this`hand
      ensures Valid() && (entries, hand) == old(AgedIn(entries, hand, rs[r], r))
    {
      hide IsPowerOf2, And, MayBecome, CacheOk, Slot, Visited, FirstFrom;
      CacheSizeIsPower();
      CacheSized(entries, |rs|);
      var i, clock := hand, hand;
      ghost var k, n := 0, entries[1].counter;
      AgedOk(entries, |rs|, clock, rs[r], r);
      VisitStart(clock, CACHE_SIZE, {});
      while true
        invariant k < CACHE_SIZE && i == Slot(clock, k, CACHE_SIZE) && hand == clock
        invariant Visited(clock, CACHE_SIZE, k, {}) && |entries| == CACHE_SIZE
        invariant k <= n && entries == old(entries)[1 := old(entries[1]).(counter := n - k)]
        decreases CACHE_SIZE - k
      {
        VisitNext(clock, CACHE_SIZE, k, And(i + 1, CACHE_SIZE - 1), {});
        i := And(i + 1, CACHE_SIZE - 1);
        k := k + 1;
        var e := entries[1];
        if e.counter > 0 {
          entries := entries[1 := e.(counter := e.counter - 1)];
        } else {
          entries := entries[1 := CacheEntry(Some(r), rs[r].fd, rs[r].fcgiFd, 1)];
          hand := i;
          assert n == k - 1 && hand == Slot(clock, n + 1, CACHE_SIZE);
          assert entries == old(entries)[1 := entries[1]];
          return;
        }
        assert entries == old(entries)[1 := old(entries[1]).(counter := n - k)];
        if i == clock {
          assert k == CACHE_SIZE <= n;
          return;
        }
      }
    }

    /** request_cache_hit. */
    method CacheHit(r: nat)
      requires Valid() && r < |rs|
      modifies this`entries, this`hand
      ensures Valid()
      ensures old(EntriesOf(entries, r)) == {} ==> (entries, hand) == old(AgedIn(entries, hand, rs[r], r))
      ensures old(EntriesOf(entries, r)) != {} ==> hand == old(hand)
      ensures old(EntriesOf(entries, r)) != {} ==>
                exists i: nat :: FirstFrom(hand, CACHE_SIZE, i, old(EntriesOf(entries, r))) && i < CACHE_SIZE &&
                  entries == old(entries)[i := CacheEntry(Some(r), rs[r].fd, rs[r].fcgiFd, old(entries)[i].counter + 1)]
    {
      hide IsPowerOf2, And, FirstFrom;
      CacheSizeIsPower();
      var i, clock := hand, hand;
      ghost var k, good := 0, EntriesOf(entries, r);
      VisitStart(clock, CACHE_SIZE, good);
      while true
        invariant k < CACHE_SIZE && i == Slot(clock, k, CACHE_SIZE) && Valid()
        invariant entries == old(entries) && hand == clock && Visited(clock, CACHE_SIZE, k, good)
        decreases CACHE_SIZE - k
      {
        VisitNext(clock, CACHE_SIZE, k, And(i + 1, CACHE_SIZE - 1), good);
        i := And(i + 1, CACHE_SIZE - 1);
        k := k + 1;
        var e := entries[i];
        if e.req == Some(r) {
          assert i in good;
          entries := entries[i := CacheEntry(e.req, rs[r].fd, rs[r].fcgiFd, e.counter + 1)];
          return;
        }
        if i == clock {
          VisitAll(clock, CACHE_SIZE, good);
          break;
        }
      }
      CacheAdd(r);
    }

    /** request_cache_search: a stale entry for the socket is cleared and not followed. */
    method CacheSearch(fd: int) returns (r: Option<nat>)
      requires Valid() && fd >= 0
      modifies this`entries
      ensures Valid()
      ensures r.Some? ==> r.value < |rs| && rs[r.value].fd == fd
      ensures old(EntriesOfFd(entries, fd)) == {} ==> r.None? && entries == old(entries)
      ensures old(EntriesOfFd(entries, fd)) != {} ==>
                exists i: nat :: FirstFrom(hand, CACHE_SIZE, i, old(EntriesOfFd(entries, fd))) && i < CACHE_SIZE &&
                  var e := old(entries)[i];
                  if r.Some? then r == e.req && entries == old(entries)[i := e.(counter := e.counter + 1)]
                  else e.req.Some? && e.req.value < |rs| && rs[e.req.value].fd != fd
                       && entries == old(entries)[i := e.(counter := 0, fd := -1)]
    {
      hide IsPowerOf2, And, FirstFrom;
      CacheSizeIsPower();
      var i, clock := hand, hand;
      ghost var k, good := 0, EntriesOfFd(entries, fd);
      VisitStart(clock, CACHE_SIZE, good);
      while true
        invariant k < CACHE_SIZE && i == Slot(clock, k, CACHE_SIZE) && Valid()
        invariant entries == old(entries) && Visited(clock, CACHE_SIZE, k, good)
        decreases CACHE_SIZE - k
      {
        VisitNext(clock, CACHE_SIZE, k, And(i + 1, CACHE_SIZE - 1), good);
        i := And(i + 1, CACHE_SIZE - 1);
        k := k + 1;
        var e := entries[i];
        if e.fd == fd {
          assert i in good;
          if rs[e.req.value].fd == fd {
            entries := entries[i := e.(counter := e.counter + 1)];
            return e.req;
          }
          entries := entries[i := e.(counter := 0, fd := -1)];
          return None;
        }
        if i == clock {
          VisitAll(clock, CACHE_SIZE, good);
          return None;
        }
      }
    }

    /** The uncached scan for a socket. */
    method ScanFd(fd: int) returns (r: Option<nat>)
      requires Valid()
      ensures r.Some? ==> FirstFrom(ClockHand(0), |rs|, r.value, FdSlots(rs, fd))
      ensures r.None? ==> FdSlots(rs, fd) == {}
    {
      hide IsPowerOf2, And, FirstFrom;
      var i, clock, size := ClockHand(0), ClockHand(0), |rs|;
      ghost var k, good := 0, FdSlots(rs, fd);
      VisitStart(clock, size, good);
      while true
        invariant k < size && i == Slot(clock, k, size) && Visited(clock, size, k, good)
        decreases size - k
      {
        VisitNext(clock, size, k, And(i + 1, size - 1), good);
        i := And(i + 1, size - 1);
        k := k + 1;
        if rs[i].fd == fd {
          return Some(i);
        }
        if i == clock {
          VisitAll(clock, size, good);
          return None;
        }
      }
    }

    /** request_list_get_by_fd: the cache first, then the scan; a hit of the scan is cached. */
    method GetByFd(fd: int) returns (r: Option<nat>)
      requires Valid() && fd >= 0
      modifies this`entries, this`hand
      ensures Valid()
      ensures r.Some? ==> r.value in FdSlots(rs, fd) && r.value < |rs| && rs[r.value].fd == fd
      ensures r.None? <==> FdSlots(rs, fd) == {}
      ensures UniqueFds(rs) && r.Some? ==> FirstFrom(ClockHand(0), |rs|, r.value, FdSlots(rs, fd))
    {
      hide IsPowerOf2;
      r := CacheSearch(fd);
      if r.Some? {
        return;
      }
      r := ScanFd(fd);
      if r.Some? {
        CacheAdd(r.value);
      }
    }

    /** request_list_next_available. */
    method NextAvailable(clockId: nat) returns (r: Option<nat>)
      requires Valid()
      ensures r.Some? ==> FirstFrom(ClockHand(clockId), |rs|, r.value, AvailableSlots(rs))
      ensures r.Some? ==> r.value < |rs| && rs[r.value].state == Available
      ensures r.None? ==> AvailableSlots(rs) == {}
    {
      hide IsPowerOf2, And, FirstFrom;
      var i, clock, size := ClockHand(clockId), ClockHand(clockId), |rs|;
      ghost var k, good := 0, AvailableSlots(rs);
      VisitStart(clock, size, good);
      while true
        invariant k < size && i == Slot(clock, k, size) && Visited(clock, size, k, good)
        decreases size - k
      {
        VisitNext(clock, size, k, And(i + 1, size - 1), good);
        i := And(i + 1, size - 1);
        k := k + 1;
        if rs[i].state == Available {
          return Some(i);
        }
        if i == clock {
          VisitAll(clock, size, good);
          return None;
        }
      }
    }

    /** The scan of request_list_next_assigned. */
    method ScanAssigned(clockId: nat) returns (r: Option<nat>)
      requires Valid()
      ensures r.Some? ==> FirstFrom(ClockHand(clockId), |rs|, r.value, AssignedSlots(rs, clockId))
      ensures r.None? ==> AssignedSlots(rs, clockId) == {}
    {
      hide IsPowerOf2, And, FirstFrom;
      var i, clock, size := ClockHand(clockId), ClockHand(clockId), |rs|;
      ghost var k, good := 0, AssignedSlots(rs, clockId);
      VisitStart(clock, size, good);
      while true
        invariant k < size && i == Slot(clock, k, size) && Visited(clock, size, k, good)
        decreases size - k
      {
        VisitNext(clock, size, k, And(i + 1, size - 1), good);
        i := And(i + 1, size - 1);
        k := k + 1;
        if rs[i].state == Assigned && rs[i].clockId == clockId {
          return Some(i);
        }
        if i == clock {
          VisitAll(clock, size, good);
          return None;
        }
      }
    }

    /** request_list_next_assigned: the location's hand moves to the request found. */
    method NextAssigned(clockId: nat) returns (r: Option<nat>)
      requires Valid()
      modifies this`entries, this`hand, this`hands
      ensures Valid() && |hands| == old(|hands|)
      ensures r.Some? ==> FirstFrom(old(ClockHand(clockId)), |rs|, r.value, AssignedSlots(rs, clockId))
      ensures r.Some? ==> r.value < |rs| && rs[r.value].state == Assigned && rs[r.value].clockId == clockId
      ensures r.None? ==> AssignedSlots(rs, clockId) == {}
      ensures hands == if r.Some? && clockId < |old(hands)| then old(hands)[clockId := r.value] else old(hands)
    {
      hide IsPowerOf2;
      r := ScanAssigned(clockId);
      if r.Some? {
        CacheHit(r.value);
        if clockId < |hands| {
          hands := hands[clockId := r.value];
        }
      }
    }

    /** request_list_get: the request with this id. */
    method Get(reqId: nat) returns (r: Option<nat>)
      requires Valid()
      modifies this`entries, this`hand
      ensures Valid()
      ensures r == if idOffset <= reqId < idOffset + |rs| then Some(reqId - idOffset) else None
    {
      hide IsPowerOf2;
      if reqId < idOffset || reqId - idOffset >= |rs| {
        return None;
      }
      CacheHit(reqId - idOffset);
      r := Some(reqId - idOffset);
    }
  }

  // ----- lookup and fairness ------------------------------------------------------------------

  /** One call of next_assigned as seen from the list: requests, the hand before, the slot found. */
  datatype Call = Call(rs: seq<Request>, hand: nat, found: nat)

  /**
   * A run of successful calls for one location. Between calls the requests may change in any
   * way, but only these calls move the location's hand.
   */
  ghost predicate CallRun(calls: seq<Call>, loc: nat, size: nat) {
    && (forall k :: 0 <= k < |calls| ==>
          && |calls[k].rs| == size && calls[k].hand < size
          && FirstFrom(calls[k].hand, size, calls[k].found, AssignedSlots(calls[k].rs, loc)))
    && (forall k :: 0 <= k < |calls| - 1 ==> calls[k + 1].hand == calls[k].found)
  }

  /** A call that passes over an assigned slot comes nearer to it. */
  lemma NearerEachTime(size: nat, hand: nat, found: nat, x: nat, good: set<nat>)
    requires hand < size && x < size && x in good && FirstFrom(hand, size, found, good) && found != x
    ensures Distance(found, x, size) < Distance(hand, x, size)
  {
    DistanceReaches(hand, found, size);
    DistanceReaches(hand, x, size);
  }

  lemma {:induction false} DistanceShrinks(calls: seq<Call>, loc: nat, size: nat, x: nat)
    requires CallRun(calls, loc, size) && calls != [] && x < size
    requires forall k :: 0 <= k < |calls| ==> x in AssignedSlots(calls[k].rs, loc) && calls[k].found != x
    ensures Distance(calls[|calls| - 1].found, x, size) + |calls| <= size
  {
    var n := |calls| - 1;
    var c := calls[n];
    NearerEachTime(size, c.hand, c.found, x, AssignedSlots(c.rs, loc));
    DistanceReaches(c.hand, x, size);
    if n > 0 {
      DistanceShrinks(calls[..n], loc, size, x);
      assert calls[n - 1 + 1].hand == calls[n - 1].found;
    }
  }

  /**
   * Round-robin fairness: a request that stays assigned for a location is returned within at
   * most `size` successful calls for that location.
   */
  lemma Fairness(calls: seq<Call>, loc: nat, size: nat, x: nat)
    requires CallRun(calls, loc, size) && x < size && |calls| >= size
    requires forall k :: 0 <= k < |calls| ==> x in AssignedSlots(calls[k].rs, loc)
    ensures exists k :: 0 <= k < size && calls[k].found == x
  {
    if forall k :: 0 <= k < size ==> calls[k].found != x {
      var run := calls[..size];
      assert CallRun(run, loc, size);
      DistanceReaches(run[size - 1].found, x, size);
      DistanceShrinks(run, loc, size, x);
      assert false;
    }
  }
}
