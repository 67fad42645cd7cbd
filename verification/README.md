# A verified model of the GPUDirect PUT path

This project models how a client stores one object over RDMA: the checksum both ends compute, the
pool of pinned buffers the backend receives into, the client's registrations and tokens, the sessions
the proxy keeps, and the protocol that ties them together. Everything is proved by the Dafny 4.11
verifier; `dafny verify dfyconfig.toml` checks the project.

Code that updates state step by step is written that way: classes for the pool, its leases, the sink,
the session table, the handlers, the registration cache, its tokens and the retrying client; loops for
the table, the checksum, the decoder, the scan for a ticket and the retries. Where several threads or
machines act at once there is also a transition system whose steps are the points at which another
thread can run, and each statement about it holds in every state of every run.

How the modules fit together:

- **CRC-32C.** `BitStrings`, `Words`, `Lfsr`, `PolynomialRemainder` and `Crc32cSpec` define CRC-32C
  (section 12.1 of RFC 3720) as a shift register and as a remainder over GF(2); `Crc32cTheorems` has its
  algebra and what it detects; `Crc32cTable` says why one lookup per byte is enough. `BackendCrc32c` and
  `ClientCrc32c` are the two copies of the code, held to the one specification. A `uint32_t` is a string of
  32 bits, least significant first, and its value is below 2^32.
- **Base64.** `Base64Checksum` has the decoder with its 32-bit accumulator, against section 4 of RFC 4648.
- **Buffer pool.** `PoolMachine` cuts Acquire, Release and Shutdown at every atomic read, lock and library
  call, for any number of threads. `PoolLedger`, `PoolInvariant`, `PoolSafety` and `PoolTheorems` prove that
  each buffer is always in exactly one place. `BufferPool` has the classes; every call also drives the
  machine's own steps, so what holds of reachable states holds of the objects.
- **Sink and handlers.** `GdsSink`, `DataPlane`, `SessionManager` and `ControlPlane` compose them; the
  library they call is `CuObjServer`, which may refuse what it is asked, and remembers each request with
  its answer: a call fails exactly where the library refused something.
- **PUT protocol.** `PutMachine` is client, proxy and backend over a network in which a message once sent
  may arrive any number of times or never. `PutInvariant`, `PutClients`, `PutAsks` and `PutTheorems` prove it,
  `PutWitness` has a run from the start, and `HandlerSteps` shows that a handler's call is the machine's
  own steps.
- **Client.** `PutClient` has the retry loop and one attempt, over the outside of `ClientOutside` and by
  the policy of `RetrySpec`; `GdsMemory` has the registration cache and the tokens, `GdsMemoryMachine`
  the same cache with its critical sections interleaved, and `MemorySteps` shows that a call of the one
  is a run of the other.
- **Benchmark.** `WorkClaiming` has the workers that share one counter.

## What the code does that its comments or its callers might not expect

The model follows the code. Each of these is stated and proved.

- A comment says that a lease given back after Shutdown never enters the pool
  (`backend/src/gds/buffer_pool.h:73-76`). A Release that read the flag before the exchange still can:
  `PoolTheorems.StrayExactly` says exactly when, and `PoolTheorems.LeakBounded` how much can be left behind.
  The same file speaks of one mutex (`backend/src/gds/buffer_pool.h:60`); there is one for each bucket.
- The client never compares lengths, so a short read can be reported as a full transfer.
  `PutTheorems.SucceedsExactlyWhen` gives the exact condition for success, and `PutTheorems.ShortReadCanPass`
  shows that even a checked PUT can succeed without its last four bytes having been pulled.
- An OpenSession message delivered again makes the proxy forget a completion
  (`PutTheorems.RepeatedOpenForgets`), also between CompleteUpload's search and its reading of the etag;
  the etag is then empty (`PutTheorems.CompleteUploadIsSafe`). Reports may be of an earlier transfer under the
  same session id, even of one from before the session's latest creation.
- A session's time to live is computed but never looked at (`proxy/src/session/session_manager.cpp:72-75`), so
  nothing here expires.
- A pointer that is registered already is not checked again for its size, and a new one is registered
  with size + offset as `size_t` adds them, which wraps: with both 2^63 nothing is covered.
  `GdsMemoryMachine.AcquireCoversExactly` has the exact condition; the client itself passes offset 0.
- Between AcquireToken's check and its request another thread can close the descriptor
  (`GdsMemoryMachine.TokenAfterUnregister`); `GdsMemoryMachine.OpenExactlyWhenReopened` says when it is open.
- The base64 decoder accepts text whose length is not a multiple of four, any text after the first `=`,
  and more than four octets (`Base64Checksum.ParseBase64Crc32c`, `Base64Checksum.OnlyTheHeadMatters`).
- A comment on the lease speaks of oversize leases without a pool (`backend/src/gds/buffer_pool.cpp:58-62`);
  every lease that holds a buffer has its pool, oversize or not, so that branch never runs.

## Model

| member | source | states |
|---|---|---|
| Lfsr.BurstSurvives | backend/src/common/crc32c.cpp:31-38 | from any start value, inputs of one length that differ only inside a window no wider than the register lead to different registers |
| Lfsr.RunParity | backend/src/common/crc32c.cpp:31-38 | with a divisor of even weight the register's parity is the start's xor the input's |
| Lfsr.IdleOnto | backend/src/common/crc32c.cpp:17-19 | the register step without input is onto: every value has a predecessor n steps ago |
| PolynomialRemainder.RunIsTheRemainder | backend/src/common/crc32c.cpp:13-38 | the register after any input is the GF(2) remainder of start·x^n + input·x^32, and no other word is |
| Crc32cSpec.PolynomialConstant | backend/src/common/crc32c.cpp:10-11 | 0x82F63B78 has exactly the Castagnoli divisor's coefficients, bit-reversed |
| Crc32cSpec.CastagnoliFacts | backend/src/common/crc32c.cpp:10-11 | the divisor has a constant term and, with its leading term, even weight |
| Crc32cTable.ResponseNext | backend/src/common/crc32c.cpp:17-19 | the table's inner step is one clock of the register |
| Crc32cTable.Lookup | backend/src/common/crc32c.cpp:35 | a shift, a lookup and an xor equal eight bit-serial clocks for every register value and byte |
| Crc32cTable.UpdateStep | backend/src/common/crc32c.cpp:34-36 | one iteration takes the specification over a prefix to that over the next prefix |
| BackendCrc32c.Polynomial | backend/src/common/crc32c.cpp:11 | the constant as a word is the divisor |
| BackendCrc32c.MakeTable | backend/src/common/crc32c.cpp:13-23 | entry i is the register's response to the byte i, for all 256 |
| BackendCrc32c.Crc32cUpdate | backend/src/common/crc32c.cpp:31-38 | from any start value and for all bytes, the loop equals the bit-serial specification |
| BackendCrc32c.Crc32c | backend/src/common/crc32c.cpp:44-52 | the CRC-32C of all the bytes |
| ClientCrc32c.MakeTable | client/src/data/crc32c.cpp:12-22 | the client's table has the same 256 entries |
| ClientCrc32c.Crc32cUpdate | client/src/data/crc32c.cpp:30-37 | the client's loop meets the same specification |
| ClientCrc32c.Crc32c | client/src/data/crc32c.cpp:43-51 | the same CRC-32C |
| Crc32cTheorems.FeedByte | backend/src/common/crc32c.cpp:34-36 | a byte is an xor into the register and eight clocks |
| Crc32cTheorems.FeedIsTheRemainder | backend/src/common/crc32c.cpp:31-38 | for every start value and message a word is the remainder if and only if it is the register |
| Crc32cTheorems.CrcIsTheRemainder | backend/src/common/crc32c.cpp:44-47 | the checksum is the complemented remainder with an all-ones start, and is the only word that is |
| Crc32cTheorems.FeedAppend | backend/src/common/crc32c.cpp:31-38 | streaming: feeding two pieces equals feeding their concatenation |
| Crc32cTheorems.CrcCombine | backend/src/common/crc32c.cpp:29-47 | Crc(a+b) is Crc(a) advanced by the length of b, xor Crc(b) |
| Crc32cTheorems.CrcAffine | backend/src/common/crc32c.cpp:29-47 | for three messages of one length the xor of the checksums is the checksum of the xor |
| Crc32cTheorems.ResidueExact | backend/src/common/crc32c.cpp:29-47 | appending four bytes gives the fixed residue if and only if they are the little-endian checksum |
| Crc32cTheorems.TailFor | backend/src/common/crc32c.cpp:29-47 | after any message some four bytes lead to any given checksum |
| Crc32cTheorems.BitsInjective | backend/src/common/crc32c.cpp:33-36 | messages are equal exactly when their bits are |
| Crc32cTheorems.BurstDetected | backend/src/common/crc32c.cpp:31-47 | two different messages of one length that differ only within 32 consecutive bits never share a checksum |
| Crc32cTheorems.FourByteChangeDetected | backend/src/common/crc32c.cpp:31-47 | nor do two that differ within four adjacent bytes |
| Crc32cTheorems.OddChangeDetected | backend/src/common/crc32c.cpp:31-47 | nor do two that differ in an odd number of bits |
| Base64Checksum.AccumulatorKeepsTwo | backend/src/common/crc32c.cpp:67 | however often the unmasked accumulator wraps, its low twelve bits are the last two sextets |
| Base64Checksum.DecodeStep | backend/src/common/crc32c.cpp:67-68 | consuming a sextet keeps: octets out are exactly the octets completed so far |
| Base64Checksum.IndexIsThePosition | backend/src/common/crc32c.cpp:56-61 | a character has index v if and only if it stands at v in the standard's alphabet, and none if and only if it is not in it |
| Base64Checksum.OctetsAre | backend/src/common/crc32c.cpp:64-69 | the octets completed one at a time are the octets of the 24-bit groups of the standard |
| Base64Checksum.ParseBase64Crc32c | backend/src/common/crc32c.cpp:54-73 | accepts exactly the strings whose text before the first = is in the alphabet and has six characters or more, and returns the first four octets weighted 2^24, 2^16, 2^8 and 1 |
| Base64Checksum.RoundTrip | backend/src/common/crc32c.cpp:54-73 | the encoding of any bytes is accepted if and only if there are at least four, and then gives the first four, weighted so |
| Base64Checksum.ChecksumRoundTrip | backend/src/common/crc32c.cpp:54-73 | every 32-bit checksum survives being encoded and decoded |
| Base64Checksum.OnlyTheHeadMatters | backend/src/common/crc32c.cpp:65-72 | accepted strings that agree in their first six characters decode alike |
| PoolSpec.PickIsLeast | backend/src/gds/buffer_pool.cpp:86-93 | over sorted classes the capacity picked is the least that fits, or exactly the size when none does |
| PoolSpec.SortIsSorted | backend/src/gds/buffer_pool.cpp:77 | sorting gives an ascending permutation |
| PoolInvariant.TakeParts | backend/src/gds/buffer_pool.cpp:119-128 | taking from a bucket hands its last entry to the lease, and no other holder changes |
| PoolInvariant.PutParts | backend/src/gds/buffer_pool.cpp:170-178 | putting hands the call's buffer to the end of its bucket, and no other holder changes |
| PoolInvariant.DrainMoves | backend/src/gds/buffer_pool.cpp:191-198 | draining moves entry j of the bucket to place j after what the list already had, and leaves every other holder where it is |
| PoolInvariant.ShutdownDrainBalanced | backend/src/gds/buffer_pool.cpp:191-198 | draining keeps every buffer with exactly one holder |
| PoolInvariant.LeaseMoveBalanced | backend/src/gds/buffer_pool.cpp:20-49 | moving a lease leaves its buffer with exactly one holder |
| PoolSafety.StepKeepsInv | backend/src/gds/buffer_pool.cpp:20-202 | every step of every thread keeps conservation, sizes, the shutdown's order, and that nothing was freed wrongly |
| PoolSafety.ReachableInv | backend/src/gds/buffer_pool.cpp:20-202 | so all of that holds in every reachable state |
| PoolTheorems.ExactlyOneHolder | backend/src/gds/buffer_pool.cpp:20-202 | an address is live exactly when a lease, a call in flight, a bucket or the drain list holds it, and then just one does |
| PoolTheorems.NeverWrong | backend/src/gds/buffer_pool.cpp:144-154 | nothing is ever deregistered or freed twice, or freed before it is deregistered |
| PoolTheorems.BucketIndex | backend/src/gds/buffer_pool.cpp:169-178 | each bucket holds at most the maximum, of its class's capacity, registered, and no entry twice anywhere |
| PoolTheorems.LeaseIsGood | backend/src/gds/buffer_pool.cpp:97-142 | a lease's buffer is live and registered, has the least class capacity that fits or exactly the size, and aliases no other lease |
| PoolTheorems.LateReleasesStayOut | backend/src/gds/buffer_pool.cpp:164-177 | after the exchange only a Release that had read the flag before it can be on its way to a bucket |
| PoolTheorems.StraysBounded | backend/src/gds/buffer_pool.cpp:164-198 | entries in drained buckets never outnumber those Releases |
| PoolTheorems.ShutdownDrains | backend/src/gds/buffer_pool.cpp:184-202 | if there were none, every bucket is empty after the drain and stays so |
| PoolTheorems.LeakBounded | backend/src/gds/buffer_pool.cpp:156-202 | once all leases are gone, what is still allocated is at most what those Releases put back, and nothing if there were none |
| PoolTheorems.StrayExactly | backend/src/gds/buffer_pool.cpp:156-202 | some run from a shutdown's exchange ends with the shutdown finished and a buffer in an emptied bucket if and only if at the exchange a Release was between its flag read and its bucket, and buckets have room |
| PoolTheorems.StrayIsReached | backend/src/gds/buffer_pool.cpp:97-202 | for every pool with room in buckets and a class to serve, a run from the start leads there |
| BufferPool.PinnedBufferPool.constructor | backend/src/gds/buffer_pool.cpp:71-82 | classes sorted, buckets empty, no lease out |
| BufferPool.PinnedBufferPool.PickClassIndex | backend/src/gds/buffer_pool.cpp:86-93 | the first class that fits |
| BufferPool.PinnedBufferPool.AllocateAndRegister | backend/src/gds/buffer_pool.cpp:130-141 | asks the server for memory of that capacity and, given it, for its registration; a new registered buffer in the lease if and only if neither was refused, else nothing changed |
| BufferPool.PinnedBufferPool.Acquire | backend/src/gds/buffer_pool.cpp:97-142 | a cached entry exactly when there is one, without asking the server; else a fresh buffer of the class's capacity if and only if the server refused neither memory nor registration; a failure changes nothing |
| BufferPool.PinnedBufferPool.Dispose | backend/src/gds/buffer_pool.cpp:144-154 | deregisters and then frees, and only what may be |
| BufferPool.PinnedBufferPool.Release | backend/src/gds/buffer_pool.cpp:156-182 | the buffer goes to its bucket's end exactly when that is open and has room, else its registration and memory go |
| BufferPool.PinnedBufferPool.Shutdown | backend/src/gds/buffer_pool.cpp:184-202 | all buckets empty, live memory is exactly the leased memory, and a second call changes nothing |
| BufferPool.PinnedBufferPool.LeaseMemory | backend/src/gds/buffer_pool.h:62-107 | a lease gives access to registered memory of its capacity |
| BufferPool.AfterShutdown | backend/src/gds/buffer_pool.cpp:184-202 | after a shutdown that nothing raced, memory is live exactly when a lease holds it |
| BufferPool.PinnedBufferLease.Release | backend/src/gds/buffer_pool.cpp:51-69 | the buffer goes to its bucket's end or is destroyed, its lease is gone from the pool, nothing else changes, and this object is empty |
| BufferPool.PinnedBufferLease.TakeOver | backend/src/gds/buffer_pool.cpp:20-31 | the other's lease is this object's now, the other is empty, and nothing else of the pool changes |
| BufferPool.PinnedBufferLease.MoveAssign | backend/src/gds/buffer_pool.cpp:33-49 | what was held is given back to its pool and then the other's lease moves here, each pool changing in just that; a self-move changes no field and nothing of the pool |
| GdsSink.OversizeUnreachable | backend/src/backend_gds_sink.cpp:27-38 | with the sink's classes a length is within the 1 GiB limit exactly when some class fits it |
| GdsSink.EmptyChecksum | backend/src/backend_gds_sink.cpp:112-117 | the 0 reported for an empty transfer is the checksum of no bytes |
| GdsSink.BackendGdsSink.Start | backend/src/backend_gds_sink.cpp:68-85 | a new server and pool, or nothing |
| GdsSink.BackendGdsSink.Stop | backend/src/backend_gds_sink.cpp:87-97 | the pool is shut down and both are let go; with no lease out nothing stays allocated or registered at the server |
| GdsSink.BackendGdsSink.Borrow | backend/src/backend_gds_sink.cpp:119-126 | a buffer of at least the length, of a pooled class, if and only if the library refused nothing it was asked for |
| GdsSink.BackendGdsSink.Transfer | backend/src/backend_gds_sink.cpp:128-172 | asks for a channel and, given it, for the transfer over it; succeeds if and only if neither was refused, however few bytes came, with their number and checksum; the channel is freed on every path |
| GdsSink.BackendGdsSink.ReceiveAndDiscard | backend/src/backend_gds_sink.cpp:103-173 | succeeds if and only if the length is 0, or within the limit and the library refused nothing it was asked for; then it reports the number and checksum of exactly the bytes pulled; channels and leases balance on every path |
| SessionSpec.TicketsInjective | proxy/src/session/session_manager.cpp:34 | different sessions have different tickets |
| SessionSpec.OnlyOneMatches | proxy/src/session/session_manager.cpp:90-99 | a completed session has the ticket if and only if the direct lookup finds that session |
| SessionSpec.GeneratedIdsRepeat | proxy/src/session/session_manager.cpp:28-31 | generated ids are equal exactly when their 64-bit numbers are |
| SessionSpec.GeneratedIsNotAHint | proxy/src/session/session_manager.cpp:28-31 | no generated id is an id a client makes |
| SessionSpec.ClientIdsInjective | client/src/contracts/request_builder.cpp:16-25 | a client makes different ids from different 64-bit numbers |
| SessionManager.SessionManager.CreateSession | proxy/src/session/session_manager.cpp:19-65 | files a pending session with just this bucket, key and size under the hint, or under "pxs-" and the next number, and its ticket; keeps the other sessions, and overwrites exactly when the id was there |
| SessionManager.SessionManager.CompleteSession | proxy/src/session/session_manager.cpp:67-81 | exactly when the session exists its etag, checksum and byte count become those given, and nothing else changes |
| SessionManager.SessionManager.GetCompletedSession | proxy/src/session/session_manager.cpp:90-99 | the unordered scan returns what the direct lookup by the ticket's id does, whatever the order |
| Texts.DecimalInjective | proxy/src/session/session_manager.cpp:30 | decimal printing is injective |
| Texts.EightDigits | backend/src/backend_data_plane_service.cpp:23-27 | the eight-digit form of a checksum identifies it |
| Texts.HexDigits | backend/src/backend_data_plane_service.cpp:23-27 | that form has only lower-case hexadecimal digits |
| Texts.HexAt | backend/src/backend_data_plane_service.cpp:23-27 | each digit counts the multiple of the power of sixteen that its place says |
| Messages.Refusal | proxy/src/service/proxy_control_plane_service.cpp:38-65 | which requests are accepted, and which get which error |
| ControlPlane.ControlPlaneService.OpenSession | proxy/src/service/proxy_control_plane_service.cpp:30-85 | a refusal changes nothing; otherwise the session filed has the request's bucket, key and size, and the reply echoes the request's id and has that session's id and ticket |
| ControlPlane.ControlPlaneService.ReportGdsPut | proxy/src/service/proxy_control_plane_service.cpp:87-107 | accepted exactly when the session exists, which then holds the report's etag, checksum and byte count |
| ControlPlane.ControlPlaneService.CompleteUpload | proxy/src/service/proxy_control_plane_service.cpp:109-126 | the etag of whichever completed session has the ticket, or an error when none has |
| DataPlane.DataPlaneService.GdsPut | backend/src/backend_data_plane_service.cpp:60-123 | succeeds if and only if the request is servable, the library is connected and refused nothing; reply and report then carry the checksum of the bytes pulled, its eight digits, their number and, in the report, the request's session id; otherwise nothing is reported |
| PutInvariant.TableKept | proxy/src/service/proxy_control_plane_service.cpp:67-126 | every step keeps the session table, the messages under way and all answers true to the history |
| PutInvariant.NamesKept | proxy/src/session/session_manager.cpp:24-31 | every step keeps each drawn number used for one session at most, in flight or filed |
| PutClients.ClientsKept | client/src/client.cpp:59-132 | every step keeps each attempt in step with its call, and each success resting on a reply to its own request |
| PutTheorems.ReachableInv | client/src/client.cpp:39-132 | all of that in every reachable state |
| PutAsks.AsksKept | client/src/client.cpp:59-132 | every step keeps each session one that a request sent asked for, each attempt asking for just its call's object and size, and no transfer longer than asked for |
| PutTheorems.CompleteUploadIsSafe | proxy/src/service/proxy_control_plane_service.cpp:109-126 | an etag answers a ticket only if an accepted OpenSession made that session, a report came after its latest creation, and the etag is the eight-digit checksum of bytes pulled under that id, or of 0; it is empty only if the session was created again in between |
| PutTheorems.FoundExactlyWhenReported | proxy/src/session/session_manager.cpp:67-99 | a ticket finds a completed session if and only if a report has come in since the session's latest creation |
| PutTheorems.FoundStaysReadable | proxy/src/service/proxy_control_plane_service.cpp:119-125 | a session once found is still there when its etag is read |
| PutTheorems.SessionsHoldTheTruth | proxy/src/session/session_manager.cpp:19-81 | every session has the bucket, key and size of a request that was sent and accepted; a completed one has the checksum, the number and the etag of the bytes pulled in the transfer that its last report since its creation names, and a pending one has had no report since |
| PutTheorems.SessionsFrozen | proxy/src/session/session_manager.cpp:67-81 | until it is created again a session keeps its id, ticket, bucket, key and size, and a completed one stays completed |
| PutTheorems.IdsCollideOnlyByHint | proxy/src/session/session_manager.cpp:24-31 | below 2^64 draws, with hints such as clients make, two creations share an id if and only if they came with the same hint |
| PutTheorems.DistinctHintsNeverOverwrite | proxy/src/session/session_manager.cpp:24-63 | so with distinct hints no creation overwrites another session |
| PutTheorems.RepeatedOpenForgets | proxy/src/session/session_manager.cpp:44-63 | an OpenSession delivered again makes its ticket find nothing |
| PutTheorems.SuccessHasATransfer | client/src/client.cpp:59-132 | a PUT that returned true rests on its last attempt, whose session was opened, and on a transfer under that session's id, asked for with the call's bucket, key and size and no longer than that |
| PutTheorems.AttemptsAskRight | client/src/control/meta_rpc.cpp:24-35 | every attempt sends an OpenSession with its own id and its call's bucket, key and size, accepted exactly if none of these is empty |
| PutTheorems.VerifiedPut | client/src/client.cpp:83-119 | with both ends checking, the client's bytes and the bytes pulled have one checksum, so at one length they differ by no burst of 32 bits or less and by no odd number of bits, whatever was retried |
| PutTheorems.AttemptsOfACall | client/src/client.cpp:39-57 | at most three attempts, all with different session ids, all failed but the last, and it decides the call |
| PutTheorems.SucceedsExactlyWhen | backend/src/backend_gds_sink.cpp:145-172 | whatever was pulled, the call succeeds if and only if the check is off or the checksums agree |
| PutTheorems.ShortReadCanPass | client/src/contracts/request_builder.cpp:47-57 | for any bytes pulled there is a buffer four bytes longer with which a checked PUT succeeds |
| PutWitness.ShortReadIsReached | client/src/client.cpp:59-132 | for any bytes, a run from the start ends with such a PUT returning true |
| HandlerSteps.OpenSessionSteps | proxy/src/service/proxy_control_plane_service.cpp:30-85 | the handler refuses and nothing happens, or does just the machine's two steps and answers with the grant they send |
| HandlerSteps.ReportSteps | proxy/src/service/proxy_control_plane_service.cpp:87-107 | the handler is the machine's delivery of the report, accepted exactly if it is noted |
| HandlerSteps.CompleteUploadSteps | proxy/src/service/proxy_control_plane_service.cpp:109-126 | the handler is the search alone, or the search and the reading of the etag it answers |
| HandlerSteps.GdsPutSteps | backend/src/backend_data_plane_service.cpp:60-123 | the handler fails without a trace, or is the machine's step that serves the request with the bytes pulled, reply and report included |
| GdsMemoryMachine.StepKeepsInv | client/src/gds_transport/gds_memory_manager.cpp:28-133 | every step of every thread keeps descriptors and tokens balanced |
| GdsMemoryMachine.DescriptorBalance | client/src/gds_transport/gds_memory_manager.cpp:68-133 | descriptors got less descriptors put back is one for a registered pointer and zero for any other, in every interleaving |
| GdsMemoryMachine.DestroyClosesAll | client/src/gds_transport/gds_memory_manager.cpp:47-54 | the destructor leaves every pointer balanced |
| GdsMemoryMachine.TokenOwnership | client/src/gds_transport/gds_memory_manager.cpp:28-39 | no token is in two Token objects, and tokens obtained less tokens returned is one for a held token and zero for any other |
| GdsMemoryMachine.StaysRegistered | client/src/gds_transport/gds_memory_manager.cpp:78-93 | a pointer stays registered, with its size, until it is unregistered |
| GdsMemoryMachine.RegisteredExactly | client/src/gds_transport/gds_memory_manager.cpp:68-133 | after any run a pointer is registered if and only if each closing of it was followed by an opening, and it was registered before or opened since |
| GdsMemoryMachine.OpenExactlyWhenReopened | client/src/gds_transport/gds_memory_manager.cpp:95-121 | when AcquireToken comes to ask for its token the descriptor is open if and only if every unregistering since its check was followed by a registering |
| GdsMemoryMachine.TokenAfterUnregister | client/src/gds_transport/gds_memory_manager.cpp:103-119 | from any state in that gap another thread's UnregisterBuffer leads to a token without an open descriptor |
| GdsMemoryMachine.GapIsReached | client/src/gds_transport/gds_memory_manager.cpp:95-113 | a run from the start leads into the gap, for every pointer and size |
| GdsMemoryMachine.AcquireCoversExactly | client/src/gds_transport/gds_memory_manager.cpp:106-133 | what is registered then covers size bytes from the offset if and only if it did before, or the pointer was new and the sum is below 2^64 |
| GdsMemory.Token.Reset | client/src/gds_transport/gds_memory_manager.cpp:35-38 | a held token goes back once and the object is empty |
| GdsMemory.Token.MoveAssign | client/src/gds_transport/gds_memory_manager.cpp:31-33 | the old token goes back, the other's moves here; a self-move changes nothing |
| GdsMemory.GdsMemoryManager.RegisterBuffer | client/src/gds_transport/gds_memory_manager.cpp:68-76 | null or empty is refused; an already registered pointer keeps its entry without asking the library; otherwise it succeeds if and only if the library, asked for this pointer and size, did |
| GdsMemory.GdsMemoryManager.UnregisterBuffer | client/src/gds_transport/gds_memory_manager.cpp:78-93 | the entry and its descriptor go whatever the library answers, and for a registered pointer its answer is the result |
| GdsMemory.GdsMemoryManager.AcquireToken | client/src/gds_transport/gds_memory_manager.cpp:95-121 | asks the library for a registration only if there is none, and for a token of this size and offset once there is; succeeds if and only if neither was refused, and then exactly one token more is out and held and the previous one is back; the offset's size bytes are registered exactly if they were before, or the pointer was new and the sum did not wrap |
| GdsMemory.GdsMemoryManager.Destroy | client/src/gds_transport/gds_memory_manager.cpp:47-54 | no descriptor stays open |
| MemorySteps.RegisterSteps | client/src/gds_transport/gds_memory_manager.cpp:68-76 | the call is a run of the machine's steps and leaves what they leave |
| MemorySteps.UnregisterSteps | client/src/gds_transport/gds_memory_manager.cpp:78-93 | so is this call |
| MemorySteps.AcquireSteps | client/src/gds_transport/gds_memory_manager.cpp:95-121 | so is this one, through both of its critical sections, and the token is in its slot exactly on success |
| MemorySteps.ResetSteps | client/src/gds_transport/gds_memory_manager.cpp:35-38 | giving a token back is the machine's step |
| ClientOutside.MetaRpc.OpenSession | client/src/control/meta_rpc.cpp:13-59 | one PUT request with the attempt's ids, bucket, key and length, or none when the channel is not ready; opened if and only if the proxy answered and echoed both ids |
| ClientOutside.ChunkRpc.Put | client/src/data/chunk_rpc.cpp:13-53 | one request with the attempt's ids and object, the ticket, token and size while the token is out, or none and no result when the channel is not ready |
| RetrySpec.CallsMade | client/src/client.cpp:39-57 | the calls made are the first success's position or the allowed number, whichever is less |
| RetrySpec.BackoffIs | client/src/client.cpp:47-50 | the pause before jitter is the lesser of initial·2^(k-1) and the maximum |
| RetrySpec.Jittered | client/src/client.cpp:51-52 | the pause is the product truncated, between half and three halves of the backoff |
| RetrySpec.PausesTotal | client/src/client.cpp:47-53 | such pauses together are between half and three halves of the sum of the backoffs, up to truncation |
| PutClient.Pause | client/src/client.cpp:47-53 | one pause more, within those bounds of the shifted and capped backoff |
| PutClient.RetryIfRetryable | client/src/client.cpp:39-57 | stops at the first success or at the last call allowed, returns the last call's result, and pauses once between any two calls, within those bounds |
| PutClient.Channels.Verified | client/src/client.cpp:91-119 | true if and only if the check is off, or the copy came and has the checksum the backend sent |
| PutClient.Channels.PutOnce | client/src/client.cpp:59-132 | succeeds if and only if the session's ids were echoed, the library gave a token, the backend answered and the check passed; sends requests for just this object, ticket and size; a session opened is aborted once if the attempt fails after it and never otherwise; the token always goes back |
| PutClient.PutCall.Call | client/src/client.cpp:195-201 | an attempt starts only before the deadline, and after it nothing is sent; the running account of sessions, aborts and tokens stays exact |
| PutClient.Client.PutObject | client/src/client.cpp:178-202 | each call's result is whether its attempt had to succeed by what the outside answered, and a success reports the last attempt's ids, etag and checksum; calls stop at the first success or after three; every attempt begins within the timeout of the clock reading that precedes them all, and a call makes none only once that has passed; exactly the sessions opened are aborted, but a success's; tokens balance; one pause between calls, 50 to 150 ms and then 100 to 300 ms |
| WorkClaiming.ClaimsAreExact | examples/gds/gds_bench_example.cpp:229-233 | in every interleaving the numbers claimed are 0, 1, 2 and so on, each once, and the counter stays below total plus workers |
| WorkClaiming.NothingLeftOver | examples/gds/gds_bench_example.cpp:229-234 | once any worker has left its loop all numbers below the total were claimed |
| WorkClaiming.StepDecreases | examples/gds/gds_bench_example.cpp:220-233 | every step uses up part of a bounded amount of work |
| WorkClaiming.RunsEnd | examples/gds/gds_bench_example.cpp:220-233 | so no run is longer than a bound in total, warmup and workers |
| WorkClaiming.NeverStuck | examples/gds/gds_bench_example.cpp:220-233 | while a worker has not finished, some step can be taken |
| WorkClaiming.StuckMeansDone | examples/gds/gds_bench_example.cpp:220-233 | a run that cannot go on has finished every worker and claimed exactly the numbers below the total |
| WorkClaiming.EverythingIsPutOnce | examples/gds/gds_bench_example.cpp:220-233 | and it has put every warmup of every worker and every object below the total, each once, and nothing else |
| WorkClaiming.KeysAreDistinct | examples/gds/gds_bench_example.cpp:221-232 | no object name is used twice, by warmups or formal puts |

## Left out

- Channels, controllers, protobuf and timeouts: an RPC is a request and a reply that may each be lost or repeated.
- The RDMA libraries, CUDA and memory allocation: classes that may refuse or succeed within their contracts; a new address, handle, token or channel is one that is not out.
- The remote address parsed from the RDMA token, the token's text and the object id: they only pass through to the library.
- Clocks, the formatting of expiry times, and all logging, tracing, counters and error texts.
- Random generation: ids are taken from given numbers; in the protocol a client's new session id is one it has not used.
- Stub RPCs, among them the proxy's AbortSession, which refuses every request: the client's AbortSession messages are counted where they are sent and change nothing.
- Memory ordering weaker than interleaving: atomic reads, exchanges and critical sections happen one at a time. A string read while another thread assigns it is not modelled; the etag is read in one step.
- The backend's classes and handlers are proved for one caller at a time; interleaving is in PoolMachine and PutMachine. Inside the sequential pool a ghost run of the machine with one thread ties the two.
- The benchmark's Worker is a set of steps rather than a loop, because its point is the interleaving; its statistics, its argument parsing and workers whose setup fails are absent, and that every worker reaches the barrier is assumed.
- Initialize, Shutdown and the registering calls of Client: they only forward, or set and reset pointers.
- PutClient.RetryIfRetryable: its function is PutObject's, the only one it is given; policies whose shift or product would overflow are excluded, as the source leaves them undefined.
- BufferPool.PinnedBufferPool.constructor: the server holds no allocation and no registration yet, as when the sink starts; pools that share a server are not modelled.
- GdsSink.BackendGdsSink.Start: a second Start is excluded; there the source destroys the old server before the old pool's destructor uses it, and `main` starts once.
- GdsSink.BackendGdsSink.Stop: that the server outlives the pool's shutdown is the order of the body; the end of a server's life is not modelled.
- PutClient.Channels.PutOnce: it is not derived from the protocol's steps as the handlers are; what they share is the messages, the ids and the checksums.
- GdsMemory.CuObjClient: what a failed PutDescriptor leaves open inside the library is unknown, so calls are counted, not their effects.
