# Transfer Fabric in Dafny

This project models the movement engine of Transfer Fabric and proves what it
is for: bytes arrive, exactly once and in the right place, whatever the
schedule, the segmentation of the network or the order in which threads run.

| file | component |
|---|---|
| `Basics`, `Arith`, `Domains` | bytes, 64-bit words with explicit wrap, errors, product and quotient facts, memory domains |
| `Chunking` | range resolution and the chunk plan |
| `Crc32c`, `Crc32cVectors` | CRC32C against the bit-serial register, its polynomial and its check value |
| `Sha256Words`, `Sha256`, `Sha256Windows`, `Sha256Vectors` | SHA-256: words and constants, the hasher, blocks computed in windows, the digests of the standard's examples |
| `RegionHash` | the hashing of endpoint regions |
| `LittleEndian`, `Streaming`, `Frame` | the frame format, its incremental decoder, and incremental decoding in general |
| `Transport` | the framed client/server protocol over two byte channels |
| `Pipeline`, `Schedules` | staging slots and streams under an arbitrary engine; runs as a function of the engine's choices |
| `Worlds` | what the executor does not decide, as its input: copies, failures, the cancel flag, the engine |
| `Executor`, `Transfer` | the chunk loop and the drain, and a whole execution with verification, in a given world |
| `Routes`, `RouteSearch`, `Planner`, `RouteCosts` | the domain graph, the depth-first search, ranking, and what the cost model says about the graph |
| `Staging`, `Reservation` | staging pools, and the reservation of rings from two of them |
| `Registry` | endpoint slots with generations |
| `Scheduler` | the banded queue, its workers and its shutdown |
| `Lifecycle`, `Driver` | transfer states and telemetry in every interleaving, and the executor as its execution step |

How the outside world enters the model:

- A stream is a FIFO of queued copies. An engine moves any number of their
  bytes, or lets a copy fail, at every point where the transfer thread can be
  interrupted; its choices are an arbitrary list of operations.
- The network is two reliable byte channels; a step delivers any nonzero number
  of bytes up to the size of the receive buffer.
- The system allocator returns null or memory that overlaps no live block. A
  flag `willing` says that it grants every request that fits the address space.
- The executor runs in a *world*, an input that says for each turn of its loop
  whether the cancel flag is seen, what becomes of each copy and what the engine
  does meanwhile. In each world there is one run, and every run that the schedule
  semantics allows has a world (`Worlds.EveryRunIsPlayed`).
- Elsewhere cancellation, refusals by the scheduler and the results of
  reservations are arbitrary choices at each point where they can occur.
- Critical sections and atomic operations are the steps of the state machines.

## Where a claim needs a condition

For each of these it is proved exactly when the code meets the claim.

- *Staging buffers are released once.* The executor and `finalize` both release
  them. `Reservation.ReleaseOnceOrTwice`: the second release keeps a pool
  balanced exactly when the route has no node in that pool (or the chunk size is
  zero); `Reservation.DoubleReleaseSharesMemory` shows two owners of one buffer.
- *A stored CRC protects the payload.* A stored CRC of zero means "not
  checked", also when zero is the real CRC. `Frame.BurstRefused`: damage within
  32 bits is refused if and only if the CRC is nonzero;
  `Frame.ZeroCrcUnprotected` has such a payload.
- *State changes follow the table.* A transfer without chunks goes from active
  to completed. `Lifecycle.LeavesTableIffEmpty`: some run takes a transfer off
  the table if and only if it has no chunks;
  `Lifecycle.CompletionInTableIffNonempty` is the same for one step.
- *A client can ask for any offset.* The server sends from the start of the file
  and numbers bytes from zero; the client checks against the requested offset.
  `Transport.TransferCorrect` says exactly which requests succeed.
- *The protocol never gets stuck.* A path too long for a frame is not sent, and
  a client whose destination opened waits for the answer.
  `Transport.StallsIffUnanswerable`: a conversation can get stuck if and only if
  the request does not fit and the destination opens.
- *Verification hashes what was copied.* Copies ignore a file's descriptor
  offset, hashing adds it. `RegionHash.HashedIsCopied`: equal for every content
  exactly when the endpoint is not a file opened at a nonzero offset.
- *A run that reports success has copied everything.* A failure reported by the
  sync inside the chunk loop is dropped there. `Schedules.PlainIffNoReportLost`:
  for every overlapped job, always if reports stick; if they do not, exactly
  when every chunk but the last ones, as many as there are streams, was in place
  before the transfer (in particular when there are no others).
- *Buffers are idle when they are returned.* The streams are drained only on
  success. `Schedules.BusyIffOverlapped`: a cancelled run can return a buffer
  under a queued copy if and only if the route is overlapped and has at least
  two chunks; `Transfer.RunTransfer` has the safe half for every way to fail,
  and `Schedules.ReusedSlotCorrupts` shows that the next user of such a buffer
  decides what arrives.
- *Admitted routes can be reserved.* `Planner.ReserveAdmitted` proves it for
  host-memory intermediates; a device node takes its ring from the host pool
  without having been charged, `Planner.DeviceNodeUncharged`.
  `Reservation.ReserveStaging` says exactly when a fresh reservation succeeds.
- *A non-direct route must win by half a second.* `RouteCosts.MarginIff`: for
  nonnegative weights, for every input and every order of equal costs, if and
  only if direct paths are preferred or hops or bytes cost anything. If they
  do, the margin never decides: `RouteCosts.DirectChosen`.
- *Zero-byte transfers are no-ops* (docs/CHUNKING.md). The code reads a source
  range of length zero as the whole source:
  `Chunking.ZeroBytesOnlyFromEmptySource`.

## Model

| member | source | states |
|---|---|---|
| `Executor.MoveChunks` | src/runtime/executor.cpp:242-298 | in every world: success if and only if no turn stops and no stream reports a failure to the drain; the first turn that stops gives the error and the bytes counted; cancellation if and only if the flag is seen before anything else stops the loop. Every destination byte is its old value or the source byte meant for it; success means nothing is queued and (unless the report of a chunk that was not in place before can be lost) the plain copy with all other bytes unchanged; no slot is left under a queued copy unless the route is overlapped and has two chunks; success and cancellation are runs of the schedule semantics |
| `Worlds.EveryRunIsPlayed` | src/runtime/executor.cpp:246-298 | every successful run of the schedule semantics is the run in some world: nothing stops, nothing is reported, and the end is the same |
| `Worlds.LegErrorMeans` | src/runtime/executor.cpp:226-239 | a turn gets through if and only if every copy is done, and otherwise has the error of the first that is not |
| `Pipeline.EngineKeeps` | src/runtime/executor.cpp:258-298 | no list of engine operations breaks the pipeline invariant: slots of queued copies hold exactly the bytes those copies owe, and every issued byte has arrived or is in flight |
| `Pipeline.PutSlotKeeps` | src/runtime/executor.cpp:215-239 | a synchronous leg may write a staging slot, given that no queued copy reads it, without disturbing any copy in flight |
| `Pipeline.IssueKeeps` | src/runtime/executor.cpp:270-278 | queueing the last leg of the next chunk on an empty stream extends the covered range by exactly that chunk |
| `Executor.FreeSlot` | src/runtime/executor.cpp:258-261 | before a slot is used again its stream is empty; trust in later silence is lost only if a report is dropped |
| `Executor.RunLegs` | src/runtime/executor.cpp:262-268 | the synchronous legs stop with the error of the first that the world fails, and otherwise leave exactly the chunk's source bytes in its slot of the last ring, the engine acting between any two of them |
| `Executor.DrainStreams` | src/runtime/executor.cpp:292-298 | the final drain succeeds if and only if no stream reports a failure in this world, and then every stream is empty |
| `Schedules.PlainIffNoReportLost` | src/runtime/executor.cpp:246-298 | for every overlapped job success means a plain copy under every schedule if reports stick; if they do not, exactly when every chunk but the last `depth` ones was in place before |
| `Schedules.LateArrives` | src/runtime/executor.cpp:258-298 | a run that reports success has delivered every byte of the last `depth` chunks, whether or not reports stick |
| `Schedules.SuccessIsPlain` | src/runtime/executor.cpp:246-298 | every successful run that cannot lose a report does the plain copy |
| `Schedules.LosingRun` | src/runtime/executor.cpp:258-261 | for every chunk but the last `depth` ones and every byte of it that was not in place there is a run that reports success without that byte |
| `Schedules.TurnKeeps` | src/runtime/executor.cpp:246-290 | one turn of the loop moves the pipeline invariant on by exactly one chunk |
| `Schedules.BusyIffOverlapped` | src/runtime/executor.cpp:292-307 | a cancelled run can return a slot that a queued copy reads if and only if the route is overlapped and has at least two chunks |
| `Schedules.ReusedSlotCorrupts` | src/runtime/executor.cpp:300-307 | for every such job, whatever the slot's next user writes is what the queued copy delivers |
| `Executor.RunTurns` | src/runtime/executor.cpp:246-290 | the loop performs the turns of a schedule, all of them if and only if none stops, or stops at the first with its error and a clean destination |
| `Transfer.RunTransfer` | src/runtime/executor.cpp:129-351 | the whole execution in every world: early exits; verification is reached if and only if the copying starts, no turn stops and no stream reports; success if and only if there is nothing to do, or it is reached and finds nothing wrong; cancelled if and only if the flag is seen while copying; otherwise which error. A clean destination in every outcome, success implies the plain copy, a full verified count exactly when verification is on, a complete trustworthy copy never fails verification, and slots are idle when returned on success, on a route that is not overlapped and with at most one chunk |
| `Transfer.Verify` | src/runtime/executor.cpp:319-340 | verification succeeds if and only if both regions can be read and their digests are equal |
| `Transfer.PlainCopyVerifies` | src/runtime/executor.cpp:313-340 | a finished plain copy passes verification in every mode |
| `Transfer.CrcVerifies` | src/runtime/executor.cpp:317-340 | in CRC mode a transfer verifies if and only if the bytes received have the CRC32C of the bytes sent; damage within 32 consecutive bits is always refused |
| `Transfer.ShaVerifies` | src/runtime/executor.cpp:317-340 | in SHA mode, if and only if they have its SHA-256 |
| `Transport.TransferCorrect` | src/transports/tcp_transport.cpp:143-358 | for every request: in every reachable state at most one frame is unconsumed; every run is bounded and, unless the request cannot be sent, somebody can act until both sides are done; the client returns ok if and only if the request can succeed, and then its file is the first `length` source bytes, otherwise with the error of whichever fails first; the server reports ok if and only if the request can succeed, or asks for no bytes of a file it has |
| `Transport.Progress` | src/transports/tcp_transport.cpp:143-247 | nobody waits for bytes that never come, unless the request was never sent |
| `Transport.MeasureFalls` | src/transports/tcp_transport.cpp:285-358 | every receive, close and end-of-stream step uses up a nonnegative measure |
| `Transport.Advance` | src/transports/tcp_transport.cpp:143-358 | every step of either endpoint leads from one stage of the conversation to another |
| `Transport.FramesSound` | src/transports/tcp_transport.cpp:143-358 | the real frame codec is one the protocol proof applies to |
| `Transport.StallsIffUnanswerable` | src/transports/tcp_transport.cpp:285-310 | a conversation can get stuck if and only if the request does not fit in a frame and the destination opens |
| `Transport.RunOut` | src/transports/tcp_transport.cpp:143-358 | every conversation can be carried on until nobody can act |
| `Transport.ReqRoundTrip` | src/transports/tcp_transport.cpp:69-86 | decoding an encoded request path returns it, whatever bytes follow |
| `Transport.KindBytes` | include/transfer_fabric/transports/transport.hpp:14-21 | the first eight bytes of each kind of message on the wire |
| `Transport.RequestBytes` | src/transports/tcp_transport.cpp:69-86 | where a request has its offset, its length and its path |
| `Transport.ChunkBytes` | src/transports/tcp_transport.cpp:201-222 | chunk i is sent with its number, its place in the transfer, and the bytes of the file at that place |
| `Transport.BuildServerPlan` | src/transports/tcp_transport.cpp:183-200 | the server's chunk plan is the exact plan in frame-sized pieces |
| `Streaming.FeedRefinesBatch` | src/transports/frame.cpp:66-112 | for every split of the input, the frames handed out so far followed by the batch parse of the buffer are the batch parse of all bytes fed |
| `Streaming.FeedThenDrain` | src/transports/frame.cpp:66-112 | feeding in any pieces and then draining returns the batch parse of the concatenation |
| `Streaming.ErrorPersists` | src/transports/frame.cpp:71-84 | once an error is reported every later list of calls hands out no frame and every later call reports it |
| `Streaming.ReceivePart` | src/transports/frame.cpp:66-112 | delivering part of a frame in transit yields nothing, delivering the rest yields exactly that frame and an empty buffer |
| `Frame.StreamRoundTrip` | src/transports/frame.cpp:37-112 | for every list of encoded frames and every split of their concatenation, feed and drain return exactly the headers and payloads in order |
| `Frame.ParseWire` | src/transports/frame.cpp:66-112 | the decoder reads an encoded frame back and leaves what follows |
| `Frame.HeaderRoundTrip` | src/transports/frame.cpp:44-61 | every header field is read back from the bytes that were written |
| `Frame.ParsePartial` | src/transports/frame.cpp:68-85 | no proper prefix of an encoded frame is taken for a frame or an error |
| `Frame.ParseStable` | src/transports/frame.cpp:66-112 | bytes that follow never change a frame or an error already found |
| `Frame.DamagedPayload` | src/transports/frame.cpp:100-108 | a damaged payload is refused exactly when the stored CRC is nonzero and differs from its own |
| `Frame.BurstRefused` | src/transports/frame.cpp:100-108 | damage within 32 consecutive bits is refused if and only if the stored CRC is nonzero |
| `Frame.ZeroCrcUnprotected` | src/transports/frame.cpp:103-106 | there is a payload in whose place any payload of its length is accepted |
| `Frame.TryParse` | src/transports/frame.cpp:66-112 | the checks in source order compute the reference parse |
| `Frame.Decoder.Feed` | src/transports/frame.cpp:66-112 | one feed is one step of the incremental decoder: buffer, frame and error |
| `Frame.Encode` | src/transports/frame.cpp:37-64 | writing field by field into a zeroed buffer gives the wire form; too large a payload is refused |
| `Frame.WireLayout` | include/transfer_fabric/transports/frame.hpp:14-26 | the first eight bytes of every encoded frame and, byte by byte, where each field stands |
| `Frame.AcceptedIsWire` | src/transports/frame.cpp:66-112 | what the decoder accepts is, but for the reserved bytes, the encoding of the frame it hands out, whose payload has the stored CRC unless that is zero |
| `LittleEndian.GetPut` | src/transports/frame.cpp:10-34 | a field read back is the value written, for every width |
| `LittleEndian.PutGet` | src/transports/frame.cpp:10-34 | writing what was read restores the bytes |
| `LittleEndian.PutAt` | src/transports/frame.cpp:10-23 | byte k of a field is the digit of weight 256^k |
| `Crc32c.TableStepIsSerial` | src/integrity.cpp:23-29 | one table-driven byte step is eight bit-serial steps of the reflected register, for every polynomial |
| `Crc32c.SerialAppend` | src/integrity.cpp:23-29 | feeding in parts is feeding the concatenation |
| `Crc32c.SerialInjective` | src/integrity.cpp:23-29 | over any number of message bits different registers stay different |
| `Crc32c.BurstDetected` | src/integrity.cpp:23-35 | two messages of any equal length that differ, and only within 32 consecutive bits, have different CRCs |
| `Crc32c.FourByteDamageDetected` | src/integrity.cpp:23-35 | two messages that differ only within four consecutive bytes have different CRCs |
| `Crc32c.ZeroCrcMessage` | src/integrity.cpp:31-35 | some nonempty message has CRC zero |
| `Crc32c.BuildTable` | src/integrity.cpp:8-21 | entry i of the table is i clocked eight times through the Castagnoli polynomial |
| `Crc32c.Hasher.Update` | src/integrity.cpp:23-29 | the table-driven loop keeps the bit-serial register of all bytes so far |
| `Crc32c.Hasher.Value` | include/transfer_fabric/integrity.hpp:32-43 | the value is the CRC32C of everything fed |
| `Crc32c.Compute` | src/integrity.cpp:31-35 | the one-shot computation is the bit-serial CRC32C |
| `Crc32cVectors.CheckValue` | tests/test_core.cpp:20-20 | the CRC32C of "123456789" is 0xE3069283 |
| `Crc32cVectors.Taps` | src/integrity.cpp:11-11 | the taps of the register are the terms of the Castagnoli polynomial |
| `Sha256.ProcessBlock` | src/integrity.cpp:67-90 | the in-place schedule and the 64 rounds compute the compression of section 6.2 of FIPS 180-4 |
| `Sha256.Hasher.Update` | src/integrity.cpp:92-101 | for every split, state and buffer stand for exactly the bytes fed so far |
| `Sha256.Hasher.PadZeros` | src/integrity.cpp:107-108 | the padding loop terminates and adds the zeros of section 5.1.1 of FIPS 180-4 |
| `Sha256.Hasher.Final` | src/integrity.cpp:103-118 | finalization absorbs the padding with the 64-bit length and leaves the hash of the padded message |
| `Sha256.HashPieces` | src/integrity.cpp:61-130 | for every split of a message below 2^61 bytes, through the buffer and the in-place block function, the digest is its SHA-256, whose parts the rows below hold against the standard |
| `Sha256.FoldPieces` | src/integrity.cpp:92-118 | any split into updates, over any word arithmetic, hashes the concatenation |
| `Sha256.AbsorbAppend` | src/integrity.cpp:92-101 | absorbing whole blocks in two parts is absorbing them at once |
| `Sha256Vectors.AbcDigest` | tests/test_core.cpp:31-32 | the SHA-256 of "abc" is the digest that the standard gives |
| `Sha256Vectors.TwoDigest` | src/integrity.cpp:67-118 | so is that of the standard's example of two blocks |
| `Sha256Words.ConstantIsCubeRoot` | src/integrity.cpp:39-48 | each of the 64 round constants is the first 32 bits of the fraction of the cube root of its prime |
| `Sha256Words.PrimeTable` | src/integrity.cpp:39-48 | these primes are the first 64, in order |
| `Sha256.InitialIsSquareRoots` | src/integrity.cpp:62-62 | the initial words are those of the square roots of the first eight |
| `Sha256Words.ChoiceBits` | src/integrity.cpp:53-55 | bit for bit, the first word chooses between the other two |
| `Sha256Words.MajorityBits` | src/integrity.cpp:56-58 | bit for bit, the majority of three words |
| `Sha256Words.BigSigma0Bits` | src/integrity.cpp:83-83 | each bit is the sum modulo 2 of the bits 2, 13 and 22 places above it, cyclically |
| `Sha256Words.BigSigma1Bits` | src/integrity.cpp:81-81 | the same with 6, 11 and 25 |
| `Sha256Words.SmallSigma0Bits` | src/integrity.cpp:74-74 | the same with 7 and 18, and with 3 without going round |
| `Sha256Words.SmallSigma1Bits` | src/integrity.cpp:75-75 | the same with 17 and 19, and with 10 without going round |
| `Sha256Words.LoadValue` | src/integrity.cpp:69-72 | a word is its four bytes in big-endian order |
| `Sha256Words.StoreValue` | src/integrity.cpp:112-117 | and is stored as these four bytes |
| `Sha256.BigEndian64Value` | src/integrity.cpp:109-110 | the eight length bytes, reversed, are the little-endian form of the length |
| `RegionHash.HashEndpointRegion` | src/runtime/executor.cpp:49-108 | file, device and direct hashing all give the digest of the region, which the next rows identify; only a file that is too short is an error |
| `RegionHash.RegionDigestIsSha` | src/runtime/executor.cpp:101-107 | in SHA mode that digest is the SHA-256 of the region |
| `RegionHash.RegionDigestIsCrc` | src/runtime/executor.cpp:101-104 | in CRC mode its first four bytes are the CRC32C of the region, little-endian, and the rest are zeros |
| `RegionHash.SameDigestIffSameCrc` | src/runtime/executor.cpp:101-104 | two regions have the same digest in CRC mode if and only if they have the same CRC32C |
| `RegionHash.BurstChangesDigest` | src/runtime/executor.cpp:101-104 | damage within 32 consecutive bits changes the digest |
| `RegionHash.ReadPieces` | src/runtime/executor.cpp:62-77 | the buffered loop reads exactly the region, in order, or reports a short read |
| `RegionHash.HashedIsCopied` | src/runtime/executor.cpp:66-66 | hashed and copied bytes agree for every content exactly when the endpoint is no file opened at a nonzero offset |
| `RouteSearch.Search.Dfs` | src/planner/planner.cpp:227-324 | adds exactly the candidates that extend the current path, each once, restores path and visited set, and terminates on the unvisited domains |
| `RouteSearch.BuildRoute` | src/planner/planner.cpp:232-309 | a complete path yields its route exactly when capacity and policy admit it |
| `RouteSearch.BuildLegs` | src/planner/planner.cpp:243-280 | on a path the search reaches no feasibility check can fail; the legs are those of the path's edges |
| `RouteSearch.StagingNeeds` | src/planner/planner.cpp:282-292 | the accumulated need of a pool is four chunks in 64-bit arithmetic if the path has a node there, else nothing |
| `RouteSearch.ChargesTwice` | src/planner/planner.cpp:284-290 | an intermediate node is charged exactly twice, every other node never |
| `RouteSearch.TakeEdge` | src/planner/planner.cpp:310-322 | following an edge adds exactly the candidates through it, none of them found before |
| `RouteSearch.AllEdges` | src/planner/planner.cpp:310-322 | after the loop over the edges no candidate below the path is missing |
| `Routes.EdgesWellFormed` | src/planner/planner.cpp:78-98 | no pair of domains is joined twice, and exactly the network edges are remote |
| `Routes.Evaluate` | src/planner/planner.cpp:15-45 | the accumulating loop computes the weighted sums of the cost model over the reals |
| `Planner.Plan` | src/planner/planner.cpp:141-352 | refusals; zero bytes and one domain with backend, bandwidth, setup and cost of the single leg; and otherwise: candidates are exactly the admitted simple paths, each once, ranked; the best has minimal adjusted cost |
| `Planner.Rank` | src/planner/planner.cpp:326-342 | the ranking is a sorted permutation of the adjusted candidates |
| `Planner.FirstIsBest` | src/planner/planner.cpp:326-351 | the first route has minimal adjusted cost, and a non-direct first route is at least 0.5 cheaper than every direct one under the preference |
| `RouteCosts.MarginIff` | src/planner/planner.cpp:333-343 | for nonnegative weights the margin holds for every input and every order of equal costs if and only if direct paths are preferred or hops or bytes cost anything |
| `RouteCosts.DirectCheapest` | src/planner/planner.cpp:15-45 | with nonnegative weights a direct edge of the table costs no more than any way around it, and less if hops or bytes cost anything |
| `RouteCosts.DirectChosen` | src/planner/planner.cpp:326-351 | if they do, a direct candidate is always chosen, with or without the preference |
| `RouteCosts.LongerSums` | src/planner/planner.cpp:78-98 | every longer path takes at least the setup and strictly more time than the direct edge |
| `RouteCosts.MoreCosts` | src/planner/planner.cpp:35-42 | what more setup, time, staged bytes, hops and risk add to a cost, exactly |
| `RouteCosts.StagingCosts` | src/planner/planner.cpp:37-37 | more staged bytes cost strictly more whenever staging has a price |
| `RouteCosts.StagedLegsOf` | src/planner/planner.cpp:28-31 | every leg of a route over host memory counts as staged, the leg of a direct route does not, nor do two legs over one other node |
| `RouteCosts.OwnCostIs` | src/planner/planner.cpp:185-217 | what a transfer within one domain costs, in terms of its bytes and the weights |
| `RouteCosts.OwnLegInTable` | src/planner/planner.cpp:186-207 | that leg has the backend and bandwidth of the domain's own edge in the table, but for files and shared memory ten microseconds less setup |
| `RouteCosts.TieBreaksMargin` | src/planner/planner.cpp:326-343 | if neither costs anything there is an input whose ranking breaks the margin without the preference |
| `Planner.PlanChunks` | src/runtime/runtime.cpp:489-503 | the runtime's chunk size is aligned, at least a page and not above a preference of at least a page |
| `Planner.AdmittedFits` | src/planner/planner.cpp:282-294 | the fourfold charge covers the rings of an admitted route over host memory at depth up to four |
| `Planner.ReserveAdmitted` | src/runtime/runtime.cpp:151-181 | such a route always reserves successfully from fresh pools |
| `Planner.DeviceNodeUncharged` | src/planner/planner.cpp:284-290 | an admitted route through a device that no chunk size and depth can reserve |
| `Reservation.ReserveStaging` | src/runtime/runtime.cpp:151-181 | all rings or nothing: on failure both pools are restored with every buffer free again; from fresh pools it succeeds exactly when both have room |
| `Reservation.RollBack` | src/runtime/runtime.cpp:166-172 | undoing the rings of earlier nodes restores both pools |
| `Reservation.ReserveNode` | src/runtime/runtime.cpp:160-178 | a node gets its whole ring or gives back what it took |
| `Reservation.ReleaseStaging` | src/runtime/runtime.cpp:183-196 | each ring goes back to the pool of its node |
| `Reservation.ReleaseOnceOrTwice` | src/runtime/executor.cpp:300-307 | one release keeps each pool balanced, a second exactly when the route holds nothing of that pool |
| `Reservation.SecondReleaseKeepsIffNone` | src/runtime/runtime.cpp:239-239 | releasing held buffers twice keeps the balance exactly for no buffers |
| `Reservation.DoubleReleaseSharesMemory` | src/runtime/runtime.cpp:239-239 | after a double release two requests get the same memory |
| `Staging.BalancedIffDisciplined` | src/runtime/staging.cpp:78-179 | a run from a fresh pool is balanced (allocated = in use + free <= capacity, held and free buffers distinct) throughout if and only if every release was of a held buffer and every drain happened idle |
| `Staging.HighWaterCovers` | src/runtime/staging.cpp:78-80 | in every run, disciplined or not, the high-water mark is at or above every past allocated total and within capacity |
| `Staging.ReleaseKeepsIffHeld` | src/runtime/staging.cpp:162-168 | a release keeps the balance exactly when the buffer is held or null |
| `Staging.DrainKeepsIffIdle` | src/runtime/staging.cpp:170-179 | a drain keeps the balance exactly when nothing is held |
| `Staging.AllocatesKeeps` | src/runtime/staging.cpp:82-119 | an allocation keeps the balance and hands out one more distinct buffer of the size asked for |
| `Staging.StagingPool.Allocate` | src/runtime/staging.cpp:82-119 | in every state of the pool: first free buffer of the exact size, else new memory within capacity (the 64-bit sum may wrap), else nothing; a balanced pool stays balanced |
| `Staging.StagingPool.Release` | src/runtime/staging.cpp:162-168 | the new pool state for every buffer, held or not |
| `Staging.StagingPool.Drain` | src/runtime/staging.cpp:170-179 | every free pointer is freed once, in order, and the counters are cleared |
| `Registry.HandleLife` | src/runtime/registry.cpp:29-68 | over every run a handle resolves to the record it was issued for from its issue to its first removal, and never before or after |
| `Registry.EndpointRegistry.Allocate` | src/runtime/registry.cpp:29-47 | one more live handle, never issued before unless a generation has wrapped; the free list stays precisely the unused slots |
| `Registry.EndpointRegistry.Get` | src/runtime/registry.cpp:49-55 | exact for every handle there is |
| `Registry.EndpointRegistry.Remove` | src/runtime/registry.cpp:57-68 | removes exactly a live handle, and otherwise changes nothing and says why |
| `Scheduler.EveryTaskTakenOnce` | src/runtime/scheduler.cpp:19-84 | in every interleaving the bound holds, tasks of equal priority (cut to 0..9) come out in order of arrival, every accepted task is pending or taken exactly once, and all are taken once any worker has exited |
| `Scheduler.DrainBounded` | src/runtime/scheduler.cpp:45-84 | after shutdown nothing is accepted and the workers take a bounded number of steps |
| `Scheduler.DrainEnabled` | src/runtime/scheduler.cpp:45-66 | after shutdown some worker can act until all have exited |
| `Scheduler.BestUnique` | src/runtime/scheduler.cpp:33-43 | the oldest among the tasks of highest priority is unique |
| `Scheduler.BandOrder` | src/runtime/scheduler.cpp:23-25 | of two tasks one is in the higher band if and only if its priority is higher when both are cut to 0..9 |
| `Scheduler.Bands.Submit` | src/runtime/scheduler.cpp:19-31 | accepted exactly when up and below the bound, and then appended |
| `Scheduler.Bands.Pop` | src/runtime/scheduler.cpp:33-43 | succeeds exactly when something is pending, and takes the oldest task that none exceeds in priority, priorities cut to 0..9 |
| `Scheduler.Bands.Poll` | src/runtime/scheduler.cpp:51-62 | a woken worker exits exactly when down and drained, and otherwise always gets a task |
| `Scheduler.Bands.Shutdown` | src/runtime/scheduler.cpp:68-79 | takes the queue down; exactly one caller joins |
| `Scheduler.Bands.DepthIsSum` | src/runtime/scheduler.cpp:27-27 | the depth counter is the sum of the band lengths |
| `Lifecycle.RunFollowsTable` | src/runtime/runtime.cpp:137-149 | in every interleaved run each state change of a nonempty transfer is an edge of the table, the only other change is active to completed, and ends are final |
| `Lifecycle.EndsAsExecuted` | src/runtime/runtime.cpp:198-215 | completed exactly when execution was started and returned ok; cancelled exactly when cancellation was reported, and then it had been requested; failed on every other error; never started means failed for lack of resources; completed with verification on means equal digests over all bytes |
| `Lifecycle.CountersNeverUnderflow` | include/transfer_fabric/telemetry.hpp:83-105 | no counter is negative in any state of any interleaving |
| `Lifecycle.CreatedAccountedFor` | src/runtime/runtime.cpp:208-236 | created = completed + failed + cancelled + not yet tallied, always |
| `Lifecycle.QuiescenceBalances` | src/runtime/runtime.cpp:208-241 | at rest active and queue depth are 0; completed, failed and cancelled count the transfers with these ends; bytes moved, direct, staged and verified are the scheduled bytes of the completed transfers, of those over direct routes, over others, and of those to be verified |
| `Lifecycle.CompletionInTableIffNonempty` | src/status.cpp:20-25 | the step to completed is in the table exactly for transfers with chunks |
| `Lifecycle.LeavesTableIffEmpty` | src/runtime/runtime.cpp:198-214 | some run from the empty system takes a transfer off the table if and only if the transfer has no chunks |
| `Lifecycle.ActionsBounded` | src/runtime/runtime.cpp:208-308 | in no run does a record take more than twenty actions apart from its progress reports |
| `Lifecycle.ActsUntilDone` | src/runtime/runtime.cpp:593-599 | in every run a record can take another action until it is done, and when it is done it has its end and its waiters were told |
| `Lifecycle.ActsKeeps` | src/runtime/runtime.cpp:270-308 | every atomic action of submit, driver and finalize keeps the record's invariant and changes its state lawfully |
| `Lifecycle.ActConserves` | src/runtime/runtime.cpp:208-241 | every counter stays the sum of what the records stand for |
| `Lifecycle.BuildTable` | src/status.cpp:11-29 | the assignments give the described table |
| `Lifecycle.EdgeForward` | src/status.cpp:11-29 | the table has no cycle and no way out of an end |
| `Lifecycle.Status.Change` | src/runtime/runtime.cpp:137-149 | a change of state happens only along the table |
| `Lifecycle.Status.End` | src/runtime/runtime.cpp:198-206 | the first end wins and wakes the waiters |
| `Driver.Execute` | src/runtime/runtime.cpp:270-290 | an execution by the executor, in every world, is a sequence of life-cycle steps; what it returns is settled by the world, and equal digests on the record are equal digests of the regions |
| `Chunking.Build` | src/chunking.cpp:5-56 | Ok exactly for buildable inputs; the plan cuts the total exactly, and its size is the largest aligned one within the bounds and not above the clamped preference, or where there is none the minimum or the alignment, and when each |
| `Chunking.AlignedMinimum` | src/chunking.cpp:29-40 | with an aligned minimum the size is the largest aligned one not above the clamped preference |
| `Chunking.BestSizeUnique` | src/chunking.cpp:29-40 | this determines the size |
| `Chunking.WantedIsNearest` | src/chunking.cpp:29-32 | the clamped preference is the size within the bounds that is nearest to the preference, the minimum if there is no preference |
| `Chunking.ExactUnique` | src/chunking.cpp:42-51 | total and size determine the plan |
| `Chunking.ChunkAtTiles` | src/chunking.cpp:58-84 | every index below the count succeeds, without any 64-bit sum wrapping, with the chunk that starts where the previous one ends |
| `Chunking.ByteOwner` | src/chunking.cpp:58-84 | every byte of the transfer lies in exactly one chunk |
| `Chunking.Materialize` | src/chunking.cpp:86-95 | the list of all chunks tiles source and destination without gap or overlap |
| `Chunking.CheckedMul` | include/transfer_fabric/types.hpp:98-102 | the division test refuses exactly the products that overflow |
| `Chunking.CheckedAdd` | include/transfer_fabric/types.hpp:92-96 | the test refuses exactly the sums that overflow |
| `Chunking.ResolveRanges` | src/runtime/runtime.cpp:443-460 | accepted exactly when both ranges fit their endpoints |
| `Chunking.PlanTransfer` | src/runtime/runtime.cpp:443-503 | after resolution every chunk lies inside both endpoints and the chunks tile the transfer |
| `Chunking.ZeroBytesOnlyFromEmptySource` | src/runtime/runtime.cpp:447-447 | a transfer has zero bytes only if the source is empty |

## Left out

- Transport.TransferCorrect: the receive and send loops of both endpoints are modelled as steps of a state machine on values, not as imperative loops; partial sends are the channel's business.
- Executor.MoveChunks: the machine is a value threaded through the methods, so aliasing between source and destination memory is not modelled.
- RouteCosts.MarginIff: weights are taken nonnegative, as the cost model's defaults are; with a negative weight going round can win by any amount.
- Lifecycle.QuiescenceBalances: byte counters are unbounded integers; a 64-bit total that wraps is not modelled.
- Lifecycle.ActsUntilDone: that a worker gets to a queued task and that an execution returns are taken from the scheduler and the executor, not proved of the joint system.
- Lifecycle.RunFollowsTable: only dependency-free submits; the dependency paths of `submit` (src/runtime/runtime.cpp:529, 536-540) can leave a record planned or skip counters.
- Lifecycle.ActsKeeps: records and counters are values changed by steps; only the status cell is an object.
- Staging.StagingPool.Allocate: buffer tokens, alignment and the blocking variant are not modelled.
- Registry.EndpointRegistry.Allocate: `clear`, used at shutdown, forgets the generations and is not modelled.
- Planner.Plan: route ids, descriptions, endpoint kinds and the informational staging byte count are not modelled; std::sort is an insertion sort with the same contract.
- Routes.Evaluate: floating-point rounding; costs are real numbers.
- Sha256.HashPieces: messages of 2^61 bytes and more, whose bit length wraps, are covered by `Sha256.FoldPieces` with the wrapped length but are outside the standard.
- Win32 files and mappings, CUDA, sockets, backends and device detection: abstracted as byte sequences, channels and queued copies that move exactly their bytes or fail.
- CLI, examples, benchmarks, telemetry rendering, per-backend and per-route buckets, timing counters: formatting and easy sums.
- Batches, `resolve_dependents` and the dependency waiters: no meaningful state, or never reached.
- `execute_sync`, `allocate_blocking`, `wait_idle`: not on the submit path.
- Random ids, clocks, path checks, the retry policy: foreign inputs, or without an implementation.
