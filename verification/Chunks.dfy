/**
 * plugins/fastcgi/chunk.c: reference-counted chunks of received bytes and the I/O vectors that
 * hold slices of them. Chunk memory is a map from addresses; a freed chunk leaves the map.
 */
module Chunks {
  import opened Bytes

  type ChunkId = nat

  datatype Chunk = Chunk(data: seq<byte>, read: nat, write: nat, refs: nat)

  type Heap = map<ChunkId, Chunk>

  /** The offset of `data` in struct chunk, and the data area of an 8192-byte chunk. */
  const CHUNK_OVERHEAD: nat := 44
  const CHUNK_DATA: nat := 8192 - CHUNK_OVERHEAD

  const UIO_MAXIOV: nat := 1024

  // ----- reference counts ---------------------------------------------------------------------

  /** Live chunks are exactly the held ones, and each counts its holders. */
  ghost predicate RefsMatch(h: Heap, held: multiset<ChunkId>) {
    && (forall c :: c in h <==> c in held)
    && (forall c :: c in h ==> h[c].refs == held[c])
  }

  /** chunk_retain. */
  function Retain(h: Heap, c: ChunkId): Heap
    requires c in h
  {
    h[c := h[c].(refs := h[c].refs + 1)]
  }

  /** chunk_release: the count goes down and the chunk is freed when none is left. */
  function Release(h: Heap, c: ChunkId): Heap
    requires c in h
  {
    if h[c].refs > 1 then h[c := h[c].(refs := h[c].refs - 1)] else h - {c}
  }

  lemma RetainMatches(h: Heap, held: multiset<ChunkId>, c: ChunkId)
    requires RefsMatch(h, held) && c in held
    ensures RefsMatch(Retain(h, c), held + multiset{c})
  {}

  lemma ReleaseMatches(h: Heap, held: multiset<ChunkId>, c: ChunkId)
    requires RefsMatch(h, held) && c in held
    ensures RefsMatch(Release(h, c), held - multiset{c})
    ensures c in Release(h, c) <==> held[c] > 1
  {}

  lemma NewMatches(h: Heap, held: multiset<ChunkId>, c: ChunkId, ch: Chunk)
    requires RefsMatch(h, held) && c !in h && ch.refs == 1
    ensures RefsMatch(h[c := ch], held + multiset{c})
  {}

  /** `h'` is `h` with other counts and perhaps fewer chunks: no byte has changed. */
  ghost predicate SameBytes(h: Heap, h': Heap) {
    forall c :: c in h' ==> c in h && h'[c] == h[c].(refs := h'[c].refs)
  }

  lemma SameBytesTrans(a: Heap, b: Heap, c: Heap)
    requires SameBytes(a, b) && SameBytes(b, c)
    ensures SameBytes(a, c)
  {}

  // ----- I/O vectors --------------------------------------------------------------------------

  /** A held reference: a chunk, or a malloc'd buffer. */
  datatype Ref = InChunk(chunk: ChunkId) | Buffer(bytes: seq<byte>)

  /** A held reference with the `iovec` into it. */
  datatype Entry = Entry(ref: Ref, off: nat, len: nat)

  type Iov = seq<Entry>

  function RefsOf(e: Entry): multiset<ChunkId> {
    if e.ref.InChunk? then multiset{e.ref.chunk} else multiset{}
  }

  function IovRefs(iov: Iov): multiset<ChunkId> {
    if iov == [] then multiset{} else RefsOf(iov[0]) + IovRefs(iov[1..])
  }

  /** chunk_iov_length. */
  function IovLength(iov: Iov): nat {
    if iov == [] then 0 else iov[0].len + IovLength(iov[1..])
  }

  /** The entry lies in the written part of a live chunk, or in its buffer. */
  ghost predicate EntryOk(h: Heap, e: Entry) {
    match e.ref
    case InChunk(c) => c in h && e.off + e.len <= h[c].write <= |h[c].data|
    case Buffer(b) => e.off + e.len <= |b|
  }

  ghost predicate IovOk(h: Heap, iov: Iov) {
    forall e :: e in iov ==> EntryOk(h, e)
  }

  ghost function Content(h: Heap, e: Entry): (s: seq<byte>)
    requires EntryOk(h, e)
    ensures |s| == e.len
  {
    match e.ref
    case InChunk(c) => h[c].data[e.off..e.off + e.len]
    case Buffer(b) => b[e.off..e.off + e.len]
  }

  /** The bytes an I/O vector stands for. */
  ghost function IovBytes(h: Heap, iov: Iov): (s: seq<byte>)
    requires IovOk(h, iov)
    ensures |s| == IovLength(iov)
  {
    if iov == [] then [] else Content(h, iov[0]) + IovBytes(h, iov[1..])
  }

  lemma {:induction false} IovAppend(h: Heap, iov: Iov, e: Entry)
    requires IovOk(h, iov) && EntryOk(h, e)
    ensures IovOk(h, iov + [e]) && IovBytes(h, iov + [e]) == IovBytes(h, iov) + Content(h, e)
    ensures IovRefs(iov + [e]) == IovRefs(iov) + RefsOf(e)
  {
    if iov == [] {
      assert iov + [e] == [e] && [e][1..] == [];
      assert IovBytes(h, []) == [] && IovRefs([]) == multiset{};
    } else {
      assert (iov + [e])[1..] == iov[1..] + [e];
      IovAppend(h, iov[1..], e);
      hide Content, EntryOk, RefsOf;
      assert Content(h, iov[0]) + (IovBytes(h, iov[1..]) + Content(h, e)) == IovBytes(h, iov) + Content(h, e);
    }
  }

  // ----- bytes in a held slice do not change --------------------------------------------------

  /** Later reads only fill in bytes after the written part. */
  ghost predicate KeepsWritten(h: Heap, h': Heap, c: ChunkId) {
    c in h && c in h' && h[c].write <= h'[c].write <= |h'[c].data| && h[c].write <= |h[c].data|
    && h'[c].data[..h[c].write] == h[c].data[..h[c].write]
  }

  lemma EntryKept(h: Heap, h': Heap, e: Entry)
    requires EntryOk(h, e) && (e.ref.InChunk? ==> KeepsWritten(h, h', e.ref.chunk))
    ensures EntryOk(h', e) && Content(h', e) == Content(h, e)
  {
    if e.ref.InChunk? {
      var a, b := h[e.ref.chunk], h'[e.ref.chunk];
      assert a.data[e.off..e.off + e.len] == a.data[..a.write][e.off..e.off + e.len];
      assert b.data[e.off..e.off + e.len] == b.data[..a.write][e.off..e.off + e.len];
    }
  }

  /** A vector stands for the same bytes as long as its chunks keep what was written. */
  lemma {:induction false} IovKept(h: Heap, h': Heap, iov: Iov)
    requires IovOk(h, iov)
    requires forall c :: c in IovRefs(iov) ==> KeepsWritten(h, h', c)
    ensures IovOk(h', iov) && IovBytes(h', iov) == IovBytes(h, iov)
  {
    if iov != [] {
      hide KeepsWritten;
      assert forall c :: c in RefsOf(iov[0]) ==> c in IovRefs(iov);
      assert forall c :: c in IovRefs(iov[1..]) ==> c in IovRefs(iov);
      assert iov[0] in iov;
      assert iov[0].ref.InChunk? ==> iov[0].ref.chunk in RefsOf(iov[0]);
      EntryKept(h, h', iov[0]);
      IovKept(h, h', iov[1..]);
      forall e | e in iov ensures EntryOk(h', e) {
        assert e == iov[0] || e in iov[1..];
      }
    }
  }

  // ----- dropping sent bytes ------------------------------------------------------------------

  /** What chunk_iov_drop leaves of the vector. */
  function Dropped(iov: Iov, n: nat): Iov {
    if n == 0 || iov == [] then iov
    else if iov[0].len < n then [iov[0].(off := 0, len := 0)] + Dropped(iov[1..], n - iov[0].len)
    else [iov[0].(off := iov[0].off + n, len := iov[0].len - n)] + iov[1..]
  }

  lemma IovCons(h: Heap, e: Entry, rest: Iov)
    requires EntryOk(h, e) && IovOk(h, rest)
    ensures IovOk(h, [e] + rest) && IovBytes(h, [e] + rest) == Content(h, e) + IovBytes(h, rest)
    ensures IovRefs([e] + rest) == RefsOf(e) + IovRefs(rest)
    ensures IovLength([e] + rest) == e.len + IovLength(rest)
  {
    assert ([e] + rest)[1..] == rest;
  }

  lemma DropPart(h: Heap, e: Entry, n: nat)
    requires EntryOk(h, e) && n <= e.len
    ensures var e' := e.(off := e.off + n, len := e.len - n);
            EntryOk(h, e') && Content(h, e') == Content(h, e)[n..] && RefsOf(e') == RefsOf(e)
    ensures var z := e.(off := 0, len := 0); EntryOk(h, z) && Content(h, z) == [] && RefsOf(z) == RefsOf(e)
  {}

  lemma IovSplit(h: Heap, iov: Iov)
    requires IovOk(h, iov) && iov != []
    ensures EntryOk(h, iov[0]) && IovOk(h, iov[1..])
    ensures IovBytes(h, iov) == Content(h, iov[0]) + IovBytes(h, iov[1..])
    ensures IovRefs(iov) == RefsOf(iov[0]) + IovRefs(iov[1..])
    ensures IovLength(iov) == iov[0].len + IovLength(iov[1..])
  {
    assert iov[0] in iov && forall x :: x in iov[1..] ==> x in iov;
  }

  /** `io` is `iov` without its first `n` bytes, and with the same references. */
  ghost predicate IsDropped(h: Heap, iov: Iov, n: nat, io: Iov) {
    && IovOk(h, iov) && IovOk(h, io) && n <= IovLength(iov)
    && IovBytes(h, io) == IovBytes(h, iov)[n..] && IovRefs(io) == IovRefs(iov) && |io| == |iov|
  }

  lemma DropWhole(h: Heap, iov: Iov, n: nat, t: Iov)
    requires iov != [] && IovOk(h, iov) && iov[0].len < n && IsDropped(h, iov[1..], n - iov[0].len, t)
    ensures IsDropped(h, iov, n, [iov[0].(off := 0, len := 0)] + t)
  {
    hide EntryOk, Content, IovRefs, RefsOf, IovBytes, IovLength, IovOk;
    var e := iov[0];
    IovSplit(h, iov);
    DropPart(h, e, 0);
    IovCons(h, e.(off := 0, len := 0), t);
    SkipFirst(Content(h, e), IovBytes(h, iov[1..]), n);
  }

  lemma DropFront(h: Heap, iov: Iov, n: nat)
    requires iov != [] && IovOk(h, iov) && n <= iov[0].len
    ensures IsDropped(h, iov, n, [iov[0].(off := iov[0].off + n, len := iov[0].len - n)] + iov[1..])
  {
    hide EntryOk, Content, IovRefs, RefsOf, IovBytes, IovLength, IovOk;
    var e := iov[0];
    IovSplit(h, iov);
    DropPart(h, e, n);
    IovCons(h, e.(off := e.off + n, len := e.len - n), iov[1..]);
    CutFirst(Content(h, e), IovBytes(h, iov[1..]), n);
  }

  /** Dropping takes the bytes from the front and gives up no reference. */
  lemma {:induction false} DropBytes(h: Heap, iov: Iov, n: nat)
    requires IovOk(h, iov) && n <= IovLength(iov)
    ensures IsDropped(h, iov, n, Dropped(iov, n))
  {
    if n == 0 || iov == [] {
      assert IovBytes(h, iov)[0..] == IovBytes(h, iov);
    } else {
      IovSplit(h, iov);
      hide IsDropped, EntryOk, IovBytes, IovRefs, IovOk, IovLength;
      if iov[0].len < n {
        DropBytes(h, iov[1..], n - iov[0].len);
        DropWhole(h, iov, n, Dropped(iov[1..], n - iov[0].len));
      } else {
        DropFront(h, iov, n);
      }
    }
  }

  lemma SkipFirst(a: seq<byte>, b: seq<byte>, n: nat)
    requires |a| <= n <= |a| + |b|
    ensures (a + b)[n..] == [] + b[n - |a|..]
  {}

  lemma CutFirst(a: seq<byte>, b: seq<byte>, n: nat)
    requires n <= |a|
    ensures (a + b)[n..] == a[n..] + b
  {}

  /** chunk_iov_length. */
  method Length(iov: Iov) returns (s: nat)
    ensures s == IovLength(iov)
  {
    s := 0;
    var i := 0;
    while i < |iov|
      invariant 0 <= i <= |iov| && s + IovLength(iov[i..]) == IovLength(iov)
    {
      assert iov[i..][1..] == iov[i + 1..];
      s := s + iov[i].len;
      i := i + 1;
    }
  }

  /** chunk_iov_drop: refused for nothing and for more than there is. */
  method Drop(iov: Iov, bytes: nat) returns (ok: bool, io: Iov)
    ensures ok <==> 0 < bytes <= IovLength(iov)
    ensures io == if ok then Dropped(iov, bytes) else iov
  {
    io := iov;
    var length := Length(iov);
    ok := 0 < bytes <= length;
    if !ok {
      return;
    }
    var n: nat, i := bytes, 0;
    DropStarts(iov, bytes);
    hide Dropping, Dropped, IovLength;
    while n > 0 && i < |iov|
      invariant 0 <= i <= |iov| == |io| && Dropping(iov, bytes, io, i, n)
    {
      DropStep(iov, bytes, io, i, n);
      if io[i].len < n {
        n := n - io[i].len;
        io := io[i := io[i].(off := 0, len := 0)];
      } else {
        io := io[i := io[i].(off := io[i].off + n, len := io[i].len - n)];
        n := 0;
      }
      i := i + 1;
    }
    DropEnds(iov, bytes, io, i, n);
  }

  /** `n` bytes are still to go from entry `i` on. */
  ghost predicate Dropping(iov: Iov, bytes: nat, io: Iov, i: nat, n: nat) {
    && i <= |iov| == |io| && io[i..] == iov[i..]
    && Dropped(iov, bytes) == io[..i] + Dropped(iov[i..], n)
  }

  lemma DropStarts(iov: Iov, bytes: nat)
    ensures Dropping(iov, bytes, iov, 0, bytes)
  {
    assert iov[0..] == iov && iov[..0] == [];
  }

  lemma DropStep(iov: Iov, bytes: nat, io: Iov, i: nat, n: nat)
    requires i < |iov| && n > 0 && Dropping(iov, bytes, io, i, n)
    ensures io[i].len < n ==>
              Dropping(iov, bytes, io[i := io[i].(off := 0, len := 0)], i + 1, n - io[i].len)
    ensures io[i].len >= n ==>
              Dropping(iov, bytes, io[i := io[i].(off := io[i].off + n, len := io[i].len - n)], i + 1, 0)
  {
    DroppedStep(iov, i, n);
    hide Dropped;
    assert io[i..][0] == iov[i..][0];
    var x := if io[i].len < n then io[i].(off := 0, len := 0)
             else io[i].(off := io[i].off + n, len := io[i].len - n);
    var io' := io[i := x];
    assert io'[..i + 1] == io[..i] + [x];
    assert io'[i + 1..] == io[i..][1..] == iov[i + 1..];
    var d := Dropped(iov[i + 1..], if io[i].len < n then n - io[i].len else 0);
    assert io[..i] + ([x] + d) == io'[..i + 1] + d;
  }

  lemma DropEnds(iov: Iov, bytes: nat, io: Iov, i: nat, n: nat)
    requires Dropping(iov, bytes, io, i, n) && (n == 0 || i == |iov|)
    ensures io == Dropped(iov, bytes)
  {
    assert io == io[..i] + io[i..];
  }

  lemma DroppedStep(iov: Iov, i: nat, n: nat)
    requires i < |iov| && n > 0
    ensures Dropped(iov[i + 1..], 0) == iov[i + 1..]
    ensures iov[i].len < n ==>
              Dropped(iov[i..], n) == [iov[i].(off := 0, len := 0)] + Dropped(iov[i + 1..], n - iov[i].len)
    ensures iov[i].len >= n ==>
              Dropped(iov[i..], n) == [iov[i].(off := iov[i].off + n, len := iov[i].len - n)] + iov[i + 1..]
  {
    assert iov[i..][1..] == iov[i + 1..];
  }

  // ----- giving references up -----------------------------------------------------------------

  lemma ReleaseSameBytes(h: Heap, c: ChunkId)
    requires c in h
    ensures SameBytes(h, Release(h, c)) && SameBytes(h, Retain(h, c))
  {}

  /** chunk_iov_free_refs: every held chunk is released; what others hold stays. */
  method FreeRefs(h: Heap, iov: Iov, ghost others: multiset<ChunkId>) returns (h': Heap)
    requires RefsMatch(h, others + IovRefs(iov))
    ensures RefsMatch(h', others) && SameBytes(h, h')
  {
    h' := h;
    var i := 0;
    assert iov[0..] == iov;
    while i < |iov|
      invariant 0 <= i <= |iov|
      invariant RefsMatch(h', others + IovRefs(iov[i..])) && SameBytes(h, h')
    {
      ghost var held := others + IovRefs(iov[i..]);
      assert iov[i..][1..] == iov[i + 1..] && iov[i..][0] == iov[i];
      assert IovRefs(iov[i..]) == RefsOf(iov[i]) + IovRefs(iov[i + 1..]);
      assert held == RefsOf(iov[i]) + (others + IovRefs(iov[i + 1..]));
      hide RefsMatch, SameBytes, IovRefs, Release;
      ghost var rest := others + IovRefs(iov[i + 1..]);
      if iov[i].ref.InChunk? {
        var c := iov[i].ref.chunk;
        assert held == multiset{c} + rest;
        FreeOne(h, h', c, rest);
        h' := Release(h', c);
      } else {
        assert held == rest;
      }
      i := i + 1;
    }
    assert others + multiset{} == others;
  }

  lemma FreeOne(h: Heap, g: Heap, c: ChunkId, rest: multiset<ChunkId>)
    requires RefsMatch(g, multiset{c} + rest) && SameBytes(h, g)
    ensures c in g && RefsMatch(Release(g, c), rest) && SameBytes(h, Release(g, c))
  {
    hide RefsMatch, SameBytes, Release;
    var held := multiset{c} + rest;
    HeldLive(g, held, c);
    ReleaseMatches(g, held, c);
    ReleaseSameBytes(g, c);
    SameBytesTrans(h, g, Release(g, c));
    assert held - multiset{c} == rest;
  }

  lemma HeldLive(h: Heap, held: multiset<ChunkId>, c: ChunkId)
    requires RefsMatch(h, held) && c in held
    ensures c in h && h[c].refs == held[c]
  {}
}
