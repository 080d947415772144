/** What the records for one request do to it, one after the other (fcgi_handle_pkg, request_add_pkg). */
module Answers {
  import opened Bytes
  import opened Chunks
  import opened Requests
  import opened World
  import opened Fastcgi

  /** What each type of record can do to a request under way whose client is there. */
  lemma RecordTypes(q: Request, kind: byte, e: Entry)
    requires q.state == Sent && q.fd != -1
    ensures var (q', ok) := OnRecord(q, kind, e, true);
            && (q'.state == Ended <==> kind == 3) && (kind == 3 ==> q'.fcgiFd == -1 && !q'.sleeping)
            && (q'.state == StreamClosed <==> kind == 6 && e.len == 0)
            && (q'.state == Failed <==> kind == 0 || (kind == 6 && e.len > 0 && !HasEntry(q)))
            && (q'.iov == q.iov + [e] <==> kind == 6 && e.len > 0 && HasEntry(q))
            && (ok <==> q'.state != Failed) && (kind != 3 && kind != 6 && kind != 0 ==> q' == q)
  {
    assert |q.iov + [e]| != |q.iov|;
  }

  /**
   * An END_REQUEST is accepted from a connection that has sent its request whole and not yet had the
   * end of it: not while it is sending, and not a second time.
   */
  lemma EndAcceptedIff(q: Request, c: ConnState)
    requires c == Sending || c == Receiving || c == Ready || c == Closing
    requires q.fd == -1 || q.state == Sent || q.state == StreamClosed || q.state == Failed
    ensures OnEnd(q, MayTurn(c, Ready)).1 <==> c == Receiving
  {}

  /** A request after the STDOUT records with body slices `es`, up to the first that is refused. */
  function Fed(q: Request, es: seq<Entry>): (Request, bool)
    decreases |es|
  {
    if es == [] then (q, true)
    else
      var (q', ok) := OnStdout(q, es[0]);
      if ok then Fed(q', es[1..]) else (q', false)
  }

  /** The number of records that are no end of stream. */
  function Bodies(es: seq<Entry>): (n: nat)
    ensures n <= |es|
  {
    if es == [] then 0 else (if es[0].len > 0 then 1 else 0) + Bodies(es[1..])
  }

  /** An end of stream comes nowhere but last. */
  ghost predicate EndsLast(es: seq<Entry>) {
    forall i :: 0 <= i < |es| - 1 ==> es[i].len > 0
  }

  /**
   * The stream of an answer is accepted if and only if nothing follows its end and the vector never
   * needs more than 1024 entries (1023 when it began with an odd size). Then the vector has gained
   * the bodies in their order, and the stream is closed exactly if its end was among the records.
   */
  lemma {:induction false} StreamAcceptedIff(q: Request, es: seq<Entry>)
    requires q.state == Sent && |q.iov| <= q.cap <= 1024
    ensures Fed(q, es).1 <==> EndsLast(es) && |q.iov| + Bodies(es) <= 1024 - q.cap % 2
    ensures Fed(q, es).1 ==> Fed(q, es).0.iov == q.iov + es[..Bodies(es)]
    ensures Fed(q, es).1 ==> Fed(q, es).0.state == if Bodies(es) < |es| then StreamClosed else Sent
    ensures !Fed(q, es).1 ==> Fed(q, es).0.state == Failed && !Fed(q, es).0.sleeping
    decreases |es|
  {
    if es != [] {
      OneRecord(q, es[0]);
      hide OnStdout, EndsLast;
      var (q', ok) := OnStdout(q, es[0]);
      EndsNext(es);
      if es[0].len == 0 {
        AfterEnd(q', es[1..]);
        if |es| == 1 {
          NoBodies(es);
        }
      } else if ok {
        StreamAcceptedIff(q', es[1..]);
        assert q'.iov + es[1..][..Bodies(es[1..])] == q.iov + es[..Bodies(es)];
      }
    }
  }

  lemma OneRecord(q: Request, e: Entry)
    requires q.state == Sent && |q.iov| <= q.cap <= 1024
    ensures var (q', ok) := OnStdout(q, e);
            && (ok <==> e.len == 0 || |q.iov| + 1 <= 1024 - q.cap % 2)
            && (!ok ==> q'.state == Failed && !q'.sleeping)
            && (ok && e.len == 0 ==> q'.state == StreamClosed && q'.iov == q.iov)
            && (ok && e.len > 0 ==> q'.state == Sent && q'.iov == q.iov + [e] && |q'.iov| <= q'.cap <= 1024
                                    && q'.cap % 2 == q.cap % 2)
  {}

  lemma EndsNext(es: seq<Entry>)
    requires es != []
    ensures EndsLast(es) <==> (|es| > 1 ==> es[0].len > 0) && EndsLast(es[1..])
  {
    if EndsLast(es[1..]) && (|es| > 1 ==> es[0].len > 0) {
      forall i | 0 <= i < |es| - 1 ensures es[i].len > 0 {
        assert i > 0 ==> es[i] == es[1..][i - 1];
      }
    }
  }

  lemma NoBodies(es: seq<Entry>)
    requires |es| == 1 && es[0].len == 0
    ensures Bodies(es) == 0 && es[..0] == []
  {
    assert Bodies(es[1..]) == 0;
  }

  /** Once closed, a stream takes no more records. */
  lemma AfterEnd(q: Request, es: seq<Entry>)
    requires q.state == StreamClosed
    ensures Fed(q, es).1 <==> es == []
    ensures es != [] ==> Fed(q, es).0.state == Failed && !Fed(q, es).0.sleeping
  {}

  // ----- slots that nobody gives back -----------------------------------------------------------------

  /** A slot that is not available has a client or a connection that can bring about its recycling. */
  predicate Owned(q: Request) { q.state == Available || q.fd != -1 || q.fcgiFd != -1 }

  /**
   * A record leaves its slot owned, except an END_REQUEST on a connection that may not become ready,
   * when the client has gone, and a STDOUT or type 0 record for a slot that is not in use.
   */
  lemma OwnedKeptIff(q: Request, kind: byte, e: Entry, ready: bool)
    requires Owned(q)
    ensures Owned(OnRecord(q, kind, e, ready).0)
       <==> !(q.fd == -1 && ((kind == 3 && !ready) || (q.fcgiFd == -1 && (kind == 0 || kind == 6))))
  {}

  /** A failed slot without a client, which no event but a record finds. */
  predicate Lost(q: Request) { q.state == Failed && q.fd == -1 }

  /** What a record does to it: only an END_REQUEST on a connection that may become ready gives it back. */
  lemma LostIff(q: Request, kind: byte, e: Entry, ready: bool)
    requires Lost(q)
    ensures Lost(OnRecord(q, kind, e, ready).0) <==> !(kind == 3 && ready)
    ensures kind == 3 && ready ==> OnRecord(q, kind, e, ready).0 == NEW_REQUEST.(cap := q.cap)
  {}

  datatype Arrival = Arrival(kind: byte, slice: Entry, ready: bool)

  function After(q: Request, rs: seq<Arrival>): Request
    decreases |rs|
  {
    if rs == [] then q else After(OnRecord(q, rs[0].kind, rs[0].slice, rs[0].ready).0, rs[1..])
  }

  /** Until then it stays lost, whatever else comes. */
  lemma {:induction false} LostUntilEnd(q: Request, rs: seq<Arrival>)
    requires Lost(q) && forall i :: 0 <= i < |rs| ==> !(rs[i].kind == 3 && rs[i].ready)
    ensures Lost(After(q, rs))
    decreases |rs|
  {
    if rs != [] {
      hide OnRecord, Lost;
      LostIff(q, rs[0].kind, rs[0].slice, rs[0].ready);
      LostUntilEnd(OnRecord(q, rs[0].kind, rs[0].slice, rs[0].ready).0, rs[1..]);
    }
  }
}
