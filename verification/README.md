# Monkey web server: verified models

A Dafny model of the parts of the Monkey web server whose correctness is not
evident from reading them, with proofs that they do what they are for.

- **FastCGI client plugin** (`plugins/fastcgi`): record framing of an arbitrarily
  cut byte stream, demultiplexing by request id into reference-counted zero-copy
  slices, the request and connection state machines with all their event
  handlers, the lookup cache, the round-robin rings, the request encoder, and the
  distribution of connection slots over threads.
- **SHA-1 and base64** (`plugins/auth`): against FIPS 180-4 and section 4 of
  RFC 4648.
- **Worker scheduler and epoll state index** (`src/mk_scheduler.c`,
  `src/mk_epoll.c`) on the intrusive circular list of `src/include/mk_list.h`.
- **GMT text cache** (`src/mk_utils.c`).

`dafny verify dfyconfig.toml` checks everything.

## How it is built

| file | content |
|---|---|
| `Bytes.dfy` | bytes, machine-integer constants, options |
| `Sha1.dfy` | FIPS reference; rolled compression, streaming context |
| `Sha1Known.dfy`, `Sha1Long.dfy` | the standard's two examples, step by step |
| `Base64.dfy` | reference encoding and decoding; the two routines |
| `Protocol.dfy` | header, length and parameter codecs; record framing |
| `Prepare.dfy` | environment writing and the prepared request |
| `Ring.dfy`, `Requests.dfy` | mask arithmetic; request list, cache, clock hands |
| `Chunks.dfy` | chunk heap with reference counts, I/O vectors |
| `Engine.dfy` | the invariant of a worker (`World.Good`) and what keeps it |
| `Fastcgi.dfy`, `Receive.dfy`, `Handlers.dfy` | record handler, receive loop, event handlers |
| `Reconnect.dfy` | unread bytes and the calls after: lost, freed or handed over again |
| `Overlap.dfy` | an answer that ends before its request has gone |
| `Answers.dfy`, `Stranded.dfy` | the records of one request in sequence; slots and clients left behind |
| `Slots.dfy` | connection matrix, slot lists, connection limit |
| `List.dfy`, `Scheduler.dfy`, `Timeouts.dfy` | linked lists, a worker's queues, the sweep |
| `Acceptor.dfy`, `Serving.dfy` | two-thread protocol, and the queues refining it |
| `Epoll.dfy` | the map the index stands for; the index |
| `GmtCache.dfy` | date text and its cache |

State the program updates in place is a class with the same fields. The FastCGI
worker has one invariant, `Fastcgi.Context.Inv`, established by the constructor
and kept by every handler, so it holds in every run without the STDOUT and
END_REQUEST records that are shown to break it, up to a call that reads a freed
chunk, where the model ends: live chunks are exactly the held ones and count
their holders; sockets are unique among requests and among connections; available
slots are clean; no client sleeps on an ended or failed request; a connection
being used to send has the rest of its request; the vector of a request sent whole
is its answer so far. A
ghost log of records and a ghost track per request say what "answer" means.
Linked lists carry the ghost sequence of their links (`List.Circle`); the record
around a link (`container_of`) is a map from links to records.

Conventions: reads, writes, `connect`, the clock, `epoll_ctl`, a plugin's verdict
and `gmtime_r` are parameters with arbitrary values. Bit operations on disjoint
fields are written as arithmetic, SHA-1 on 32-bit vectors. Widths are explicit
where they matter: the 64-bit SHA-1 byte counter, `size_t` in the base64 size, the
31-bit parameter length, `unsigned long long` load readings, the `int` that holds
a timeout, the `uint8_t` mode and behaviour of an epoll state, the `unsigned
short` year. The eighty unrolled rounds are sixteen cycles of five.

## What the proofs brought out

- A receive call that starts with unread bytes loses them unless there is room
  for a header and the first read returns data (`Receive.LosslessIff`, with
  `Reconnect.LostPartExample` and `Receive.LossForRoom`).
- With unread bytes, no room for a header and nothing to read, the call parses the
  chunk it has just let go of. That chunk has been freed unless a request holds it
  too (`Receive.ParsedChunkLiveIff`, `Reconnect.FreedChunkExample`).
- The fallback distribution always gives some server more slots than its
  MaxConnections (`Slots.LimitKeptIff`). Servers with a MaxConnections of 0 count
  as one when the distribution is chosen but get nothing, so threads can be left
  without a slot (`Slots.AllServedIff`, `Slots.StarvedExample`).
- When a server hangs up before it has answered, nothing is done about its request:
  the client sleeps on (`Stranded.Strands`, `Stranded.StrandedExample`), and once the
  client is gone too the slot is lost (`Stranded.LostSlotExample`,
  `Answers.LostUntilEnd`). A STDOUT record for an idle slot, and an END_REQUEST that
  a connection cannot take, lose slots as well (`Answers.OwnedKeptIff`).
- An answer of more than 1024 STDOUT bodies fails its request
  (`Answers.StreamAcceptedIff`).
- A hangup keeps the chunk of the connection, so unread bytes become the front of
  the next connection's stream; after a refused record these include records
  already handled, which are handed over again, with data
  (`Reconnect.RepeatExample`) and without (`Reconnect.RepeatWithoutDataExample`).
  `Receive.FreshStartIff` says exactly when the next connection gets its own
  stream; in a chunk that nobody else holds, and with a header or more unread,
  that is never.
- An END_REQUEST on one connection for a request that another is still sending
  ends it with its vector still holding the request
  (`Overlap.EndTooSoonExample`). `Fastcgi.EndKeepsIff` and
  `Fastcgi.StdoutKeepsIff` say exactly when these records do no harm.
- Request ids are cut to 16 bits; one that wraps never leads back to its slot
  (`Handlers.WireIdReaches`).
- Searching an empty parameter buffer "finds" the empty key
  (`Protocol.ParamEntry.Search`).
- `base64_decode` of the encoding of the empty string fails, which is the only
  exception to the round trip (`Base64.RoundTrip`).
- Of the 32 entries of the lookup cache only entry 1 is ever used; lookups are right
  all the same (`Requests.OneEntryUsed`, `Requests.RequestList.GetByFd`).
- The capacity test is skipped when worker 0 has no load, so a capacity of zero is
  not respected (`Acceptor.SafeIff`, `Acceptor.NoCapacity`).
- A client closed before it is registered is counted as accepted and never as
  closed, so its share of the capacity is lost for good: a refusal after an
  uninterrupted scan is true exactly when no client was dropped that way
  (`Acceptor.RefusalIsTrueIff`), and an empty server can refuse everyone
  (`Acceptor.LossExample`, `Acceptor.EmptyRefusesIff`).
- A waiting connection closed by a sweep leaves its session behind exactly when
  the request has already arrived whole, and then no sweep ever removes it
  (`Timeouts.LeftBehindIff`, `Timeouts.NeverLapses`, `Timeouts.LeftBehindExample`).
- `EPOLLET` does not survive in the `uint8_t` behaviour of an epoll state, but
  wake-up restores it because it is part of the stored mask
  (`EpollSpec.WakeupRestores`).
- A descriptor is watched for the peer's half-close when it is added and no longer
  after any change of mode (`EpollSpec.AddWatches`, `EpollSpec.ChangeWatches`).
- Asking for the current time skips the lookup, so the GMT cache may hold a time
  twice; the text is the same (`GmtCache.Cache.Utime2Gmt`).

## Model

| member | source | states |
|---|---|---|
| Sha1.ChoiceRewritten | plugins/auth/sha1.c:117-118 | `((C^D)&B)^D` is the choice function of FIPS 180-4 for all words |
| Sha1.MajorityByAddition | plugins/auth/sha1.c:120 | `(B&C)+(D&(B^C))` is the majority function: the two summands never share a bit |
| Sha1.RoundFnIsF | plugins/auth/sha1.c:117-121 | in each of the four round ranges the macro's function is the standard's f of that range |
| Sha1.RegistersStep | plugins/auth/sha1.c:112-115 | overwriting only E and B is one step of the standard's shift of five registers |
| Sha1.NextWord | plugins/auth/sha1.c:103-110 | the 16-word circular array delivers word t of the full 80-word schedule and keeps the last sixteen |
| Sha1.Round | plugins/auth/sha1.c:112-115 | one round with renamed registers is one step of the reference, for every t |
| Sha1.Cycle | plugins/auth/sha1.c:135-222 | five rounds bring the five names back to their places after five reference steps |
| Sha1.Rounds | plugins/auth/sha1.c:123-222 | the eighty rounds equal the eighty steps of section 6.1.2 for every block and chaining value |
| Sha1.Context.Compression | plugins/auth/sha1.c:123-229 | one block turns H into the reference compression of H and the block |
| Sha1.ChainAppend | plugins/auth/sha1.c:262-266 | hashing blocks in two portions is hashing their concatenation |
| Sha1.ZeroCountIsLeast | plugins/auth/sha1.c:273-283 | the pad is the least number of zero bytes that leaves room for the length (section 5.1.1) |
| Sha1.PaddingFills | plugins/auth/sha1.c:271-283 | message and padding always fill whole 64-byte blocks |
| Sha1.LengthWordsAreField | plugins/auth/sha1.c:278-279 | the two words `size >> 29` and `size << 3` are the 64-bit bit count, also when the counter wraps |
| Sha1.Context.Update | plugins/auth/sha1.c:243-269 | H, partial block and counter stand for the bytes absorbed so far followed by the new ones |
| Sha1.Context.Final | plugins/auth/sha1.c:271-288 | the digest is the hash of everything absorbed, and no partial block is left |
| Sha1.HashPieces | plugins/auth/sha1.c:231-288 | for every way of cutting a message into updates the digest is the hash of the whole message |
| Sha1Abc.Digest | plugins/auth/sha1.c:103-121 | the reference is SHA-1: the digest of "abc" is a9993e36 4706816a ba3e2571 7850c26c 9cd0d89d, through every word and step |
| Sha1Abc.Hashed | plugins/auth/sha1.c:231-288 | the routines find it, wherever the three bytes are cut |
| Sha1Longer.Digest | plugins/auth/sha1.c:224-288 | the 56-byte example of two blocks gives 84983e44 1c3bd26e baae4aa1 f95129e5 e54670f1 |
| Sha1Worked.ConstantsAreRoots | plugins/auth/sha1.c:117-121 | the four constants are the whole parts of 2^30 times the square roots of 2, 3, 5 and 10 |
| Sha1Worked.LengthFieldDenotes | plugins/auth/sha1.c:278-279 | the last eight bytes are the number of bits modulo 2^64, most significant byte first |
| Base64.AllocationSound | plugins/auth/base64.c:37-41 | the `olen < len` test refuses exactly the lengths whose size wraps (2^62 and up); for every other length all that is written fits |
| Base64.GroupByFields | plugins/auth/base64.c:51-54 | the shifted and masked fields are the four sextets of the 24-bit group |
| Base64.TripleByFields | plugins/auth/base64.c:134-136 | the decoder's shifts rebuild the three octets from four sextets |
| Base64.EncodeGroups | plugins/auth/base64.c:50-61 | after the main loop the buffer holds the text of all whole groups, a line feed after each full line |
| Base64.Encode | plugins/auth/base64.c:29-84 | the buffer holds the line-broken encoding and a NUL within the allocation; refusal exactly for lengths from 2^62 |
| Base64.BuildTable | plugins/auth/base64.c:104-107 | the table maps each alphabet character to its place, `=` to zero, all else to 0x80 |
| Base64.CountSignificant | plugins/auth/base64.c:109-113 | the first pass counts exactly the characters that are not skipped |
| Base64.DecodeBlocks | plugins/auth/base64.c:123-149 | the second pass yields the bytes of the four-character groups up to the first padded one, within the room computed |
| Base64.Decode | plugins/auth/base64.c:97-155 | the result is the reference decoding of the significant characters; failure for none or a count that is no multiple of four |
| Base64.RoundTrip | plugins/auth/base64.c:29-155 | decoding the encoding gives the string back if and only if it is not empty |
| Base64.EncodeThenDecode | plugins/auth/base64.c:29-155 | the two routines one after the other return every non-empty string |
| Base64.AlphabetShown | plugins/auth/base64.c:14-15 | the 64 characters, spelt out |
| Base64.OnlyAlphabet | plugins/auth/base64.c:104-113 | the decoder skips exactly what is neither in the alphabet nor `=` |
| Base64.TestVectors | plugins/auth/base64.c:50-76 | the test vectors of section 10 of RFC 4648, "f" to "foobar" |
| Base64.LineFeeds | plugins/auth/base64.c:56-61 | a line feed at every seventy-third place of any encoding, and every other character in its place |
| Protocol.HeaderRoundTrip | plugins/fastcgi/protocol.c:73-95 | a written header is read back, whatever the reserved byte |
| Protocol.HeaderReadBack | plugins/fastcgi/protocol.c:73-95 | a header that was read is written back byte for byte but for the reserved byte |
| Protocol.LengthRoundTrip | plugins/fastcgi/protocol.c:116-147 | a length is read back as itself if and only if it is below 2^31 |
| Protocol.LengthOnTheWire | plugins/fastcgi/protocol.c:116-130 | one byte below 128, else four big-endian bytes with the top bit set |
| Protocol.PairOnTheWire | plugins/fastcgi/protocol.c:149-175 | both lengths first, then key and value: AB=C is 2, 1, A, B, C |
| Protocol.SizePredicted | plugins/fastcgi/protocol.c:149-175 | the sizing call predicts the exact byte count of a pair |
| Protocol.WriteHeader | plugins/fastcgi/protocol.c:84-95 | seven bytes are stored at the place, nothing else changes |
| Protocol.WriteParam | plugins/fastcgi/protocol.c:149-175 | the pair's encoding is stored at the place, nothing else changes, and its size is returned |
| Protocol.ParamEntry.Next | plugins/fastcgi/protocol.c:177-191 | from pair i the cursor gets to pair i+1 exactly when there is one |
| Protocol.ParamEntry.constructor | plugins/fastcgi/protocol.c:193-204 | the cursor starts on the first pair of any written list |
| Protocol.ParamEntry.Search | plugins/fastcgi/protocol.c:215-227 | a key is found exactly when it occurs at or after the cursor, and then at its first place; on an empty buffer exactly the empty key is "found" |
| Protocol.ReadPairs | plugins/fastcgi/protocol.c:177-243 | any list of pairs with lengths below 2^31 written back to back is read back pair for pair |
| Records.StreamSplit | plugins/fastcgi/fastcgi.c:597-618 | every byte string is its records end to end followed by an incomplete tail |
| Records.FramingUnique | plugins/fastcgi/fastcgi.c:597-618 | it is so in one way only |
| Records.StreamGrows | plugins/fastcgi/fastcgi.c:597-618 | when bytes arrive later, only the tail is parsed again |
| Prepare.EnvWrite | plugins/fastcgi/fcgi_env.c:31-34 | the pairs written are the longest front of the environment each of whose pairs passes the guard, inside the room given; `CutWhereNoRoom` says in numbers which front that is |
| Prepare.CutAtFirstMisfit | plugins/fastcgi/fcgi_env.c:31-34 | what is written fits, the first pair left out would not pass the guard, and all lengths are encodable |
| Prepare.CutWhereNoRoom | plugins/fastcgi/fcgi_env.c:31-34 | for every environment and room: each pair before the cut had its key, its value and eight bytes left behind the bytes before it, and the pair at the cut had not |
| Prepare.SentIff | plugins/fastcgi/fastcgi.c:270-281 | the request carries a front of the environment if and only if it is the one that ends at the first pair without that room in 4072 bytes |
| Prepare.SmallIsSentWhole | plugins/fastcgi/fcgi_env.c:31-34 | an environment below 4072 bytes, eight counted for each pair's lengths, is sent whole |
| Prepare.SmallIsPrepared | plugins/fastcgi/fastcgi.c:270-327 | up to 4048 bytes of it the preparation cannot fail for lack of room |
| Prepare.PrepareRequest | plugins/fastcgi/fastcgi.c:240-327 | success exactly when the id is positive and both end records fit below 4096; the bytes then decode to begin-request, one 8-aligned params record, empty params, empty stdin; an environment of up to 4048 bytes is always prepared and whole |
| Prepare.StoredIsRequest | plugins/fastcgi/fastcgi.c:240-327 | the stores at their offsets are four records of the framing and no more |
| Prepare.OnTheWire | plugins/fastcgi/fastcgi.c:257-327 | byte by byte: version 1, types 1, 4, 4 and 5, the id in each header, role 1, the keep-alive flag, lengths and padding |
| Prepare.ReadSent | plugins/fastcgi/fastcgi.c:273-281 | reading the params record gives back the pairs sent, a front of the environment |
| Ring.PowerOf2Exact | plugins/fastcgi/request.c:49-52 | the bit test accepts exactly the powers of two |
| Ring.MaskIsMod | plugins/fastcgi/request.c:419-427 | on a power-of-two ring the mask is the remainder |
| Ring.DistanceReaches | plugins/fastcgi/request.c:419-427 | a scan visits every slot once, its own starting slot last |
| Chunks.RetainMatches | plugins/fastcgi/chunk.c:111-114 | a retained chunk counts one more holder |
| Chunks.ReleaseMatches | plugins/fastcgi/chunk.c:116-126 | a released chunk counts one holder less and is freed exactly when it was the last |
| Chunks.IovKept | plugins/fastcgi/chunk.c:307-331 | a vector stands for the same bytes as long as its chunks keep what was written in them |
| Chunks.DropBytes | plugins/fastcgi/chunk.c:275-305 | dropping n bytes takes exactly the first n and gives up no reference |
| Chunks.Drop | plugins/fastcgi/chunk.c:275-305 | the in-place loop computes that; refused for zero bytes and for more than there are |
| Chunks.Length | plugins/fastcgi/chunk.c:251-261 | the sum of the entry lengths |
| Chunks.FreeRefs | plugins/fastcgi/chunk.c:366-385 | every reference of the vector is given up once; chunks others hold stay, with their bytes |
| Requests.RequestList.CacheAdd | plugins/fastcgi/request.c:252-273 | the ageing loop in closed form: entry 1, whatever the hand, is aged by at most 32 and replaced if its count ran out |
| Requests.OneEntryUsed | plugins/fastcgi/request.c:238-344 | in every state of a list at most entry 1 of the 32 names a request or a socket |
| Requests.RequestList.CacheHit | plugins/fastcgi/request.c:275-294 | the first entry of the request in scan order is refreshed, or the request is added |
| Requests.RequestList.CacheSearch | plugins/fastcgi/request.c:321-344 | the first entry of the socket is followed if its request still has it, otherwise cleared |
| Requests.RequestList.GetByFd | plugins/fastcgi/request.c:451-472 | whatever the cache holds, stale entries included: what a plain scan of the list finds, nothing exactly when no request has the socket |
| Requests.RequestList.NextAvailable | plugins/fastcgi/request.c:413-429 | the first available slot after the hand; none only when there is none |
| Requests.RequestList.NextAssigned | plugins/fastcgi/request.c:431-449 | the first request assigned to the location after its hand, which moves there; none only when there is none |
| Requests.Fairness | plugins/fastcgi/request.c:431-449 | a request that stays assigned is returned within `size` successful calls for its location |
| Requests.DistanceShrinks | plugins/fastcgi/request.c:392-449 | each call that passes it over brings the hand nearer to it |
| Requests.RequestList.Get | plugins/fastcgi/request.c:497-510 | the request of an id, none for ids outside the list |
| World.SetVector | plugins/fastcgi/chunk.c:366-391 | replacing a vector with counts to match keeps every invariant of the worker |
| World.RecordHandled | plugins/fastcgi/fastcgi.c:427-531 | a handled record extends the answer of its own request and leaves all others as they stand |
| World.AnswerOnTheWire | plugins/fastcgi/fastcgi.c:442-460 | a record adds its body to the answer of an id exactly when its byte 1 is 6 and bytes 2 and 3 are the id |
| World.SetChunk | plugins/fastcgi/chunk.c:79-103 | bytes written behind the write pointer change no held slice |
| World.RequestChunksLive | plugins/fastcgi/chunk.c:307-331 | no vector points at a freed chunk |
| World.ConnChunkLive | plugins/fastcgi/fcgi_fd.c:114-148 | no connection points at a freed chunk |
| Fastcgi.Context.constructor | plugins/fastcgi/fastcgi.c:786-802 | the invariants hold at the start of a worker |
| Fastcgi.Context.Recycle | plugins/fastcgi/request.c:197-205 | references are given up, the slot is clean, all invariants stay |
| Fastcgi.Context.AddPkg | plugins/fastcgi/request.c:207-230 | accepted exactly for a request under way whose vector has or can get an entry: the body's slice joins the vector, grown by two entries when full, and its chunk is retained; otherwise nothing changes |
| Fastcgi.SliceAdded | plugins/fastcgi/chunk.c:307-331 | retaining and appending the slice keeps counts, bytes and answers right |
| Fastcgi.Context.HandleStdout | plugins/fastcgi/fastcgi.c:442-460 | exact next state of the request for data, end of stream, failed and unsent requests; every invariant kept for every record that `StdoutKeepsIff` admits |
| Fastcgi.StdoutKeepsIff | plugins/fastcgi/fastcgi.c:442-460 | a STDOUT record keeps the worker in order if and only if its request has been sent whole or is not under way, or it has a body and nobody is sending the request or no entry is left |
| Fastcgi.Context.HandleEnd | plugins/fastcgi/fastcgi.c:462-508 | exact next state of request and connection: ended with its client awake, recycled or failed, and ready again; when the record comes on the connection that is still sending the request, the request fails and all is in order once that connection is let go of |
| Fastcgi.EndKeepsIff | plugins/fastcgi/fastcgi.c:462-508 | an END_REQUEST keeps the worker in order if and only if no other connection is still sending the request and it does not end a request that was not sent whole |
| Fastcgi.EndedTooSoon | plugins/fastcgi/fastcgi.c:487-501 | what happens when another connection is still sending the request: it is ended while its vector holds the rest of the request, which would go to the client |
| Overlap.EndTooSoonExample | plugins/fastcgi/fastcgi.c:462-508 | from the start of a worker: one byte of request 1 gone on one connection, request 2 gone whole on another, END_REQUEST for id 1 on the second; request 1 is ended, its vector is the rest of the request, the first connection still sends it, and the invariant is broken |
| Fastcgi.Context.HandlePkg | plugins/fastcgi/fastcgi.c:427-531 | for every record of every type: exact next state of its request and connection, nothing else touched, every invariant kept (after a refusal, once the connection is let go of), and the chunk being parsed survives if it is the connection's; excluded are exactly the STDOUT and END_REQUEST records that `StdoutKeepsIff` and `EndKeepsIff` show to break the invariant |
| Handlers.NobodySleepsInVain | plugins/fastcgi/fastcgi.c:498-528 | in every state of the worker a sleeping client's request is still to be sent or answered: whatever ended or failed a request has woken its client |
| Answers.RecordTypes | plugins/fastcgi/fastcgi.c:427-531 | for a request under way: only type 3 ends it, untied from its connection and its client awake; only type 6 adds to it or closes its stream; what fails it; all other types leave it alone |
| Answers.EndAcceptedIff | plugins/fastcgi/fcgi_fd.c:56-95 | an END_REQUEST is accepted from a receiving connection only: not while it is sending and not a second time |
| Answers.StreamAcceptedIff | plugins/fastcgi/request.c:207-230 | any sequence of STDOUT records is accepted if and only if nothing follows the end of the stream and the vector needs no more than 1024 entries (1023 from an odd size); it then holds the bodies in order, and otherwise the request has failed with its client awake |
| Answers.OwnedKeptIff | plugins/fastcgi/fastcgi.c:427-531 | a record leaves a slot with neither client nor connection if and only if the client has gone and it is an END_REQUEST its connection cannot take, or the slot was idle and it is a STDOUT or type 0 record |
| Answers.LostUntilEnd | plugins/fastcgi/fastcgi.c:427-531 | a failed slot without a client stays so through every sequence of records until an END_REQUEST with its id |
| Receive.NewChunk | plugins/fastcgi/fcgi_fd.c:114-154 | the new chunk begins with the last inherited bytes; error exactly when a space check fails |
| Receive.ParsePackets | plugins/fastcgi/fastcgi.c:597-618 | the records handed over are exactly the records of the bytes up to a refused one; the rest is their tail; a header is looked for in a freed chunk exactly when the loop is wild |
| Receive.EnsureRoom | plugins/fastcgi/fastcgi.c:559-574 | the inheritance checks never fail and the unread bytes are carried over |
| Receive.RecvResponse | plugins/fastcgi/fastcgi.c:533-632 | for every call and every future of the socket: on success the records logged are the successive records of kept and received bytes and their tail is left unread; on failure exactly which records were logged and what is left unread, and the connection is closing; or the call is wild, having come to read a freed chunk: always when nobody else holds that chunk, never while somebody does and no record is complete |
| Receive.OldTurn | plugins/fastcgi/fastcgi.c:553-618 | with no room for a header and nothing read, the old chunk is parsed after it was let go of: records handed over, incomplete rest lost while somebody else holds it, wild when nobody does |
| Receive.ParsedChunkLiveIff | plugins/fastcgi/fastcgi.c:553-618 | for every worker in order: the first inner loop of a call reads no header from a freed chunk if and only if less than a header was unread, or there was room for one, or bytes came, or somebody else holds the chunk |
| Reconnect.ReadsFreedChunk | plugins/fastcgi/fastcgi.c:553-618 | for every worker and every record larger than a chunk of which less than a header's size is missing: if the next read has no data, the call is wild |
| Reconnect.FreedChunkExample | plugins/fastcgi/fastcgi.c:553-618 | from the start of a worker: 8995 bytes of a 9000-byte record, then a read without data |
| Receive.LosslessIff | plugins/fastcgi/fastcgi.c:553-574 | a call keeps the stream whole if and only if nothing was unread, or there was header room and the first read returned data |
| Receive.LossExample | plugins/fastcgi/fastcgi.c:533-632 | `LosslessIff` at an input: a wake-up without data after part of a header |
| Reconnect.LosesPart | plugins/fastcgi/fastcgi.c:576-618 | for every worker: part of a record arrives, the next call reads nothing, and the part is lost, logged by nobody and unread no more |
| Reconnect.LostPartExample | plugins/fastcgi/fastcgi.c:576-618 | from the start of a worker, with four bytes of a record |
| Receive.LossForRoom | plugins/fastcgi/fastcgi.c:559-574 | any record cut where less room than a header is left, as in a chunk made to its measure: the part before the cut is lost although the rest arrives |
| Receive.LossForRoomExample | plugins/fastcgi/fastcgi.c:559-574 | a 9000-byte record cut after 8995 bytes |
| Receive.RecvCalls | plugins/fastcgi/fastcgi.c:533-632 | any number of calls on a connection, as long as each meets the condition of `LosslessIff`: the log is that of the whole stream, and its tail is left unread |
| Receive.FreshStartIff | plugins/fastcgi/fastcgi.c:828-844 | a slot freed with unread bytes: whatever its next connection receives, log and tail are those of its own bytes and no freed chunk is read, if and only if nothing was unread, or it was an incomplete record without room for a header behind it, in a chunk that a request still holds or of which not even the header had come |
| Receive.FreshWithDataIff | plugins/fastcgi/fastcgi.c:553-618 | as long as its first read returns bytes: if and only if nothing was unread or there was no room for a header |
| Receive.OldRecordAgain | plugins/fastcgi/fastcgi.c:553-618 | a whole record, no room and no data: the old record is handed over again |
| Reconnect.Repeats | plugins/fastcgi/fastcgi.c:597-632 | for every worker: when a refused record follows any record in one read and the connection is replaced, that record is handed over twice though its server sent it once |
| Reconnect.RepeatsWithoutData | plugins/fastcgi/fastcgi.c:553-632 | the same when the first read left no room for a header: a call of the new connection that reads nothing hands the record over again, or reads a freed chunk |
| Reconnect.RepeatExample | plugins/fastcgi/fastcgi.c:597-632 | the same from the start of a worker: a STDOUT record for a request sent whole, a record of an unknown id, hangup, new connection; the STDOUT record is logged twice |
| Reconnect.RepeatWithoutDataExample | plugins/fastcgi/fastcgi.c:553-632 | the same from the start of a worker |
| Handlers.WakeConnection | plugins/fastcgi/fastcgi.c:127-154 | the first asleep or ready connection of the location becomes ready, found exactly when there is one |
| Handlers.NewConnection | plugins/fastcgi/fastcgi.c:188-223 | the first free slot of the location is connected; with none free nothing changes and it is no error |
| Handlers.Assign | plugins/fastcgi/fastcgi.c:665-694 | a client that has a slot keeps it, else the first available slot takes it; assigned exactly when a request could be prepared for its 16-bit id, and then the vector is that request |
| Handlers.WireIdReaches | plugins/fastcgi/request.c:497-522 | the id a request goes out with leads back to its slot if and only if it did not wrap at 2^16 |
| Handlers.Stage30 | plugins/fastcgi/fastcgi.c:649-728 | assigned and asleep exactly when prepared and a connection was woken, opened or at its limit; otherwise failed; no other request changes; once assigned, a connection of its location is ready or all of the location's slots are in use |
| Handlers.StartSend | plugins/fastcgi/fastcgi.c:920-964 | the next request assigned to the connection's own location goes out on it, all of it remaining; without one the connection sleeps or is to be closed |
| Handlers.SendPart | plugins/fastcgi/fastcgi.c:966-996 | sent and remaining bytes always make the queued request; receiving exactly when the last byte has gone |
| Handlers.SendAll | plugins/fastcgi/fastcgi.c:966-996 | for every sequence of partial writes the bytes on the wire are the rest of the request |
| Handlers.AnswerHeld | plugins/fastcgi/request.c:207-230 | in every good state the vector of a request sent whole stands for the bodies of the STDOUT records handed over for it since, in that order, less what its client has |
| Handlers.SendHeaders | plugins/fastcgi/fastcgi.c:364-394 | the header bytes are dropped from the answer once |
| Handlers.SendResponse | plugins/fastcgi/fastcgi.c:396-425 | the client gets the next bytes of exactly that answer; the slot is recycled exactly when all have gone |
| Handlers.DropFailed | plugins/fastcgi/fastcgi.c:904-919 | a failed request is recycled when no connection has it |
| Handlers.HangupConn | plugins/fastcgi/fastcgi.c:828-844 | the slot is free again and keeps its chunk; a closing connection is replaced in the first free slot of its location |
| Handlers.Hangup | plugins/fastcgi/fastcgi.c:804-868 | a connection's hangup changes no request; a client's changes its own request only and its socket is no longer held |
| Stranded.Strands | plugins/fastcgi/fastcgi.c:828-844 | for every worker: when the connection of a request hangs up, the request stays as it is and no connection has it |
| Stranded.GoneIsOwned | plugins/fastcgi/fastcgi.c:845-863 | a client's hangup frees its slot exactly when no connection has the request |
| Stranded.StrandedExample | plugins/fastcgi/fastcgi.c:828-844 | from the start of a worker: request sent whole, server hangs up, the client is asleep for good |
| Stranded.LostSlotExample | plugins/fastcgi/fastcgi.c:845-863 | then the client hangs up too, and the slot is lost |
| Handlers.EventRead | plugins/fastcgi/fastcgi.c:1014-1047 | the records are handled; a connection that failed or ended is let go of, and replaced if it was ready or receiving; wild as the call is |
| Dealing.SharesEven | plugins/fastcgi/fcgi_fd.c:263-273 | dealing in turn, no two shares differ by more than one |
| Slots.DistributeNormal | plugins/fastcgi/fcgi_fd.c:252-275 | each cell is its thread's share of one deal that runs on from server to server |
| Slots.DistributeFallback | plugins/fastcgi/fcgi_fd.c:277-292 | one slot per thread, the servers taking turns |
| Slots.CreateMatrix | plugins/fastcgi/fcgi_fd.c:294-357 | for every location, in plain numbers: with no more threads than the MaxConnections add up to, 0 counting as 1, each server has its MaxConnections and the threads' totals are even; with more, each thread has one slot and the servers' totals are even; who is left without a slot and whether limits hold as in the next rows; unused servers have no slot |
| Slots.ColumnIsMax | plugins/fastcgi/fcgi_fd.c:252-275 | normal distribution: a server's slots over all threads are its MaxConnections |
| Slots.RowsEven | plugins/fastcgi/fcgi_fd.c:252-275 | normal distribution: the threads' totals for a location differ by at most one |
| Slots.LimitKeptIff | plugins/fastcgi/fcgi_fd.c:294-335 | every server of a location stays within its MaxConnections if and only if there are no more threads than these add up to, 0 counting as 1 |
| Slots.AllServedIff | plugins/fastcgi/fcgi_fd.c:310-335 | every thread gets a slot for a location, unless the MaxConnections add up to less than the threads and no longer do when each 0 counts as 1 |
| Slots.StarvedExample | plugins/fastcgi/fcgi_fd.c:310-335 | two threads, two servers with MaxConnections 0 and 1: the second thread has no slot |
| Slots.ListInit | plugins/fastcgi/fcgi_fd.c:161-216 | a thread gets as many fresh slots per server as its row says |
| Slots.SlotsStay | plugins/fastcgi/fastcgi.c:188-223 | as long as slots keep server and location, which the contract of every handler says, a server's number of slots stays |
| Slots.ConnectionLimit | plugins/fastcgi/fcgi_fd.c:161-275 | whatever the threads did since, a normally distributed server never has more than MaxConnections open connections |
| List.Init | src/include/mk_list.h:42-46 | a head alone is a well-formed circle |
| List.Add | src/include/mk_list.h:48-60 | the new link comes last in a well-formed circle |
| List.Del | src/include/mk_list.h:62-73 | the link leaves, the others stay a well-formed circle in the same order |
| List.IsEmpty | src/include/mk_list.h:75-79 | 0 exactly for a head alone |
| List.Move | src/include/mk_list.h:48-73 | a change of queue keeps both circles well formed and apart |
| Scheduler.Worker.constructor | src/mk_scheduler.c:165-215 | as many clean slots as the capacity, none busy |
| Scheduler.Worker.GetConnection | src/mk_scheduler.c:364-391 | the busy slot of a socket, none exactly when none serves it |
| Scheduler.Worker.RegisterClient | src/mk_scheduler.c:123-152 | the first available slot becomes the last busy one; a plugin's close changes nothing, the closed counter included |
| Scheduler.Worker.RemoveClient | src/mk_scheduler.c:328-362 | the slot of the socket is freed, counted and put last in the available queue; nothing changes for an unknown socket |
| Scheduler.Worker.SweepPending | src/mk_scheduler.c:400-412 | deleting while iterating removes exactly the late pending connections, in order, and keeps the rest in order |
| Scheduler.Ahead | src/include/mk_list.h:82-83 | in a list thinned out before the cursor, the saved successor is still the old one |
| Queues.DroppedKept | src/mk_scheduler.c:346-355 | a removal keeps busy and available a partition of the slots, sockets unique and idle slots clean |
| Queues.TakenKept | src/mk_scheduler.c:142-148 | so does a registration |
| Queues.PurgeNext | src/mk_scheduler.c:393-440 | removals one by one are one purge |
| Timeouts.Sessions.Create | src/mk_request.c:891-938 | the session comes last and keeps one session per socket |
| Timeouts.Sessions.Remove | src/mk_request.c:960-981 | the session of the socket goes, the others keep their order |
| Timeouts.SweepSessions | src/mk_scheduler.c:415-437 | exactly the lapsed incomplete sessions go, and with them exactly the busy slots of their sockets; `LateInPlainTimes` says in numbers which those are |
| Timeouts.CheckTimeouts | src/mk_scheduler.c:393-440 | a session goes if and only if it is incomplete and was awaited for the timeout, or for the keep-alive timeout after its first answer; a connection if and only if it was pending for the timeout or its session goes; each counted once, every other node stays in order and both lists stay well formed |
| Timeouts.LateInPlainTimes | src/mk_scheduler.c:400-437 | the tests of the sweep, as long as the sums fit an `int`, are differences of plain times |
| Timeouts.Int32Keeps | src/mk_scheduler.c:395 | the `int` keeps a time modulo 2^32, and exactly if it fits |
| Timeouts.Sessions.NextRequest | src/mk_request.c:1015-1025 | a further request is awaited from now on, counted by one |
| Timeouts.KeptAliveExample | src/mk_scheduler.c:418-437 | waiting since 0, swept at 10 with timeouts 15 and 5: gone after a first answer, kept before it |
| Timeouts.LeftBehindIff | src/mk_scheduler.c:400-437 | when a sweep closes a waiting connection whose session took over its arrival time and has served nothing, the session stays behind if and only if its request has already arrived whole |
| Timeouts.NeverLapses | src/mk_scheduler.c:418-426 | a session whose request has arrived whole is removed by no sweep, however many follow |
| Timeouts.LeftBehindExample | src/mk_scheduler.c:393-440 | a client that came at 0 with its request whole, swept at 100 with a timeout of 15: connection closed, session left |
| Acceptor.NextTarget | src/mk_scheduler.c:56-85 | the first worker with the least load, -1 exactly when worker 0 has load and all are at capacity |
| Acceptor.WorkerKeeps | src/mk_scheduler.c:123-152 | each step of a worker keeps its balance and never raises its load |
| Acceptor.StepKeeps | src/mk_scheduler.c:56-152 | each step of either thread keeps the invariant |
| Acceptor.SafeIff | src/mk_scheduler.c:56-152 | under every interleaving served and waiting clients stay within the load and the load within the capacity, a free slot is there for every registration and no load is misread, if and only if the capacity is positive |
| Acceptor.NoCapacity | src/mk_scheduler.c:62-64 | with capacity zero the first client is still accepted and finds no slot |
| Acceptor.DropsOnlyWhenFull | src/mk_scheduler.c:66-84 | a client is refused exactly when every worker was read at capacity, and the chosen one was the first least loaded |
| Acceptor.LostAreRejects | src/mk_scheduler.c:138-141 | along every run what a worker has lost is exactly the number of clients it dropped unregistered; it never shrinks |
| Acceptor.ReadingExceeds | src/mk_scheduler.c:56-77 | whenever the acceptor reads a worker it reads the real load plus the number of clients dropped unregistered |
| Acceptor.FullIsTrueIff | src/mk_scheduler.c:66-82 | a worker read as full really is full if and only if it never dropped a client unregistered |
| Acceptor.RefusalIsTrueIff | src/mk_scheduler.c:56-84 | when a scan that no worker interrupted refuses a client, the server really is full if and only if no client was dropped unregistered |
| Acceptor.EmptyRefusesIff | src/mk_scheduler.c:56-84 | an empty server refuses a client if and only if each worker has dropped as many unregistered as it has slots |
| Acceptor.LossExample | src/mk_scheduler.c:138-141 | one worker with one slot: after the first client is dropped, the empty server refuses the second |
| Acceptor.LostForGood | src/mk_scheduler.c:138-141 | once each worker has dropped as many clients unregistered as it has slots, every further client of every further run is refused |
| Serving.RegisterFindsRoom | src/mk_scheduler.c:123-152 | in every reachable state the preconditions of a registration hold on lists that show the worker |
| Serving.RegisterRefines | src/mk_scheduler.c:123-152 | registering on the lists is the protocol's registration |
| Serving.RemoveRefines | src/mk_scheduler.c:328-362 | removing on the lists is the protocol's close, count and relink; `ListsFollow` interleaves them with the acceptor |
| Serving.ListsFollow | src/mk_scheduler.c:56-152 | every run, interleaved in any way, is carried out by lists that start as the constructor leaves them, and each registration finds a free slot on them and no double |
| Epoll.StateInit | src/mk_epoll.c:50-67 | 64 available entries, the empty map |
| Epoll.Index.StateSet | src/mk_epoll.c:69-145 | the queues stand for the map with the key recorded, a sleep keeping what it hides; size grows by 64 exactly for a new key without an available entry |
| Epoll.Index.StateDel | src/mk_epoll.c:164-181 | the key and no other leaves the map, the size stays |
| Epoll.Index.Find | src/mk_epoll.c:147-162 | the entry of a key, none exactly when the map has none |
| Epoll.Index.EpollAdd | src/mk_epoll.c:269-307 | mask, bit by bit, and recorded state of an addition, nothing recorded when the kernel refuses |
| Epoll.Index.EpollDel | src/mk_epoll.c:309-327 | the state leaves the map |
| Epoll.Index.ChangeMode | src/mk_epoll.c:329-384 | mask, bit by bit, and state of every change; the process exits exactly for a wake-up of a descriptor that does not sleep |
| EpollSpec.AddWatches | src/mk_epoll.c:269-307 | the bits of every addition: reading and writing by mode, errors, hang-ups and half-closes unless it sleeps, edges by behaviour |
| EpollSpec.ChangeWatches | src/mk_epoll.c:329-375 | the bits of every change but a wake-up: the same without half-closes |
| Epoll.UpdateMeans | src/mk_epoll.c:129-142 | overwriting an entry is one update of the map |
| Epoll.TakeMeans | src/mk_epoll.c:97-126 | filling an available entry adds one key |
| Epoll.GiveMeans | src/mk_epoll.c:164-181 | returning an entry removes one key |
| EpollSpec.WakeupRestores | src/mk_epoll.c:355-382 | after a change (or wake-up) and any calls that only put the descriptor to sleep and wake it up, a further wake-up restores exactly that change's mask; it is refused exactly when the last call to touch the descriptor was no sleep |
| EpollSpec.AddedWakes | src/mk_epoll.c:269-307 | the same after an addition |
| EpollSpec.NapsKeep | src/mk_epoll.c:129-142 | sleeps and wake-ups keep events and behaviour; the descriptor sleeps exactly when the last of them was a sleep |
| HttpDate.ReadBack | src/mk_utils.c:140-178 | every shown field can be read back from its place in the text |
| HttpDate.NamesShown | src/mk_utils.c:59-61 | the names of day and month and all signs between the numbers, at their places |
| HttpDate.YearShown | src/mk_utils.c:131-158 | the four digits are the true year if and only if it is 0 to 9999 |
| HttpDate.TextTells | src/mk_utils.c:140-178 | two times have the same text exactly when all shown fields agree |
| GmtCache.Compose | src/mk_utils.c:131-178 | the moving pointer writes exactly the 32 characters of the date and nothing behind them |
| GmtCache.Cache.Get | src/mk_utils.c:63-77 | the first slot of the time answers with the direct text and is one hit richer; a miss changes nothing |
| GmtCache.Cache.Add | src/mk_utils.c:79-92 | the first of the least-used slots is replaced, no other changes |
| GmtCache.Cache.Utime2Gmt | src/mk_utils.c:102-185 | whatever the cache holds, the buffer gets the direct text of the wanted time; -1 exactly when the clock or the conversion fails |
| GmtCache.Cache.Session | src/mk_utils.c:102-185 | over every sequence of calls each answer is the direct text of its own time |

## Left out

- The request-body branch of `fcgi_prepare_request` (`plugins/fastcgi/fastcgi.c:291-318`); requests are modelled without a body.
- CGI response headers: their length is a parameter of `Handlers.SendHeaders`; regular-expression matching of locations and the per-header environment are parameters too.
- Lookup by server socket (`plugins/fastcgi/request.c:296-319`, `plugins/fastcgi/request.c:474-495`), which nothing on the modelled paths calls.
- Fastcgi.Context.HandlePkg: excludes exactly the STDOUT and END_REQUEST records for which `Fastcgi.StdoutKeepsIff` and `Fastcgi.EndKeepsIff` show that the invariants do not survive; what the code then does is `Fastcgi.Context.StdoutRecord` and `Fastcgi.Context.EndRecord`.
- Fastcgi.Context.HandleStdout: the same exclusion.
- Fastcgi.Context.HandleEnd: the same exclusion.
- Receive.ParsePackets: judges by these conditions at the start of a call for all its records (`Receive.TimelyAll`); a record that becomes harmless only through an earlier one of the same call is excluded.
- Receive.RecvResponse: the same hypothesis; what the code does after reading a freed chunk is not modelled.
- Receive.RecvCalls: no other event of the worker comes between the calls; a log per connection is not kept.
- Handlers.NewConnection: the socket returned by connecting is taken not to be among the open ones, as the kernel guarantees.
- Acceptor.SafeIff: read events are taken to come only for descriptors in the worker's epoll set that were not removed; the second `close` of a rejected socket by the event loop is not modelled.
- Epoll.Index.StateSet: the call without a thread-local index, which does nothing, is not modelled; contents of entries grown later are zeros, which no caller can observe.
- Scheduler.Worker.RegisterClient: requires an available slot and no busy slot of the socket; both are proved of every run in `Serving.ListsFollow`.
- Plugin stages, socket options (`TCP_CORK`), log output, memory-allocation failure, and the chunk list used for statistics.
- `plugins/liana`, `plugins/liana_ssl`, `plugins/palm`, `plugins/cgi`, `plugins/dirlisting`, `plugins/cheetah`, `plugins/logger`: wrappers, glue and output that would add only easy members.
- HTTP request handling (`src/mk_request.c` apart from the session list, `src/mk_http.c`, `src/mk_header.c`) and configuration.
