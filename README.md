# Connection establishment of the NCCL transport layer

This project models the transport layer of an NCCL fork (`src/transport.cc`): the
code that decides how each rank of a communicator connects to its peers, and
that sets up and tears down those connections. It proves properties of the model.

- **Transport selection** (`selectTransport`). The backends are tried in a fixed
  priority order: peer-to-peer, shared memory, network, collective network. The
  first backend that reports itself capable is bound to the connector, and its
  `setup` writes the connect handle.
- **Intent recording** (`ncclTransportP2pConnect`). This only ORs the channel's
  bit into the per-peer `connectRecv` / `connectSend` masks, for real, other,
  not yet connected peers.
- **Point-to-point setup** (`ncclTransportP2pSetup`). For every ring distance
  `i = 1..nRanks-1` there is a recv peer `rank-i` and a send peer `rank+i`.
  For each distance the setup:
  - selects the transport for every channel in the masks;
  - packs the handles into one block, recv handles first, then send handles;
  - exchanges the block with the two peers over the bootstrap service, tagged
    `(i << 8)`, plus the graph id + 1 when a graph is given.

  Every `maxPeers` distances, and after the last one, a retry loop connects the
  round. It passes over the round's distances until every connector answered
  success. Each connector's `connect` is handed the handle its peer sent, at the
  half-block offset plus the number of still unconnected connectors below it.
  Finally a barrier exchanges one flag with every peer that had an intent and
  clears the masks.

  The failure paths are modelled too. `P2pSetup.NoFailure` names the
  sufficient conditions for a setup that does not fail: every mask peer has a
  capable backend whose `setup` succeeds, no bootstrap message of the setup or
  the barrier fails, and no intent connector's `connect` or device copy can fail.
  Under it the setup is proved not to fail.
- **Collective-network setup** (`ncclTransportCollNetSetup`,
  `ncclTransportCollNetCheck` and `ncclTransportCollNetFree`):
  - the root connector, peer `nRanks`, is bound to the collective-network
    backend and set up on the node master;
  - on the recv side the masters' handles are compacted from an all-gather, and
    on the send side the handle received from the recv master is placed in this
    node's slot;
  - the intra-node check turns any local rank's failure into a system error;
  - the free drops one reference per channel root and frees the root's
    connectors on the last one. Every `free` call is for a released root connector
    that held resources and a backend, and no connector is freed twice.

The communicator is the class `CommState.Comm`. Its methods update, in place:
- the intent masks;
- the connectors, a map from `ConnKey(dir, channel, peer, index)`, where an
  absent key is a zero-initialised connector;
- the root reference counts.

Ghost logs record every backend `setup` call, every bootstrap message, every
`free` call, and, for each connector, the handle reference and retry pass of
the `connect` that connected it. A ghost map holds what was copied to device
memory.

Each of the three services is modelled as a value of a datatype whose fields
are functions giving its answers:
- the backends: `Types.Backends`;
- the bootstrap service: `Types.Bootstrap`;
- the CUDA runtime: `Types.Cuda`.

The result codes follow `ncclResult_t`, and `NCCLCHECK` stops only on a result
that is neither success nor in-progress (`Types.Failed`).

In `ncclTransportP2pSetup` the block `data[p]` is freed inside the retry loop,
after each pass. A connector that answers in-progress in the first pass is
therefore handed, in a later pass, a pointer into freed memory. The model keeps
this behaviour: such a handle reference is a `Dangling` value, and
`P2pSetup.TopRec` says so for every connection made after the first pass.

## Model

| member | source | states |
|---|---|---|
| Types.ChannelsCount | src/transport.cc:117-138 | the number of channels a mask loop visits is the mask's popcount below the bound (`recvChannels` / `sendChannels`) |
| Types.ChannelsAscending | src/transport.cc:120-138 | the channels of a mask are visited in strictly increasing order, all below the bound |
| Types.ChannelsMembers | src/transport.cc:120-138 | a channel is visited iff its bit is set in the mask and it is below the bound |
| Types.ChannelsSpec | src/transport.cc:120-138 | the channel `c` of the mask sits at position popcount-below-`c` of the visit order, which is the handle's index in its half-block |
| Types.CountBelowMono | src/transport.cc:172-213 | popcounts grow with the bound, strictly past a set bit |
| Ring.RingMod | src/transport.cc:102-105 | the recv and send peers of distance `i` are `(rank - i + nRanks) % nRanks` and `(rank + i) % nRanks`, and the distances of a peer are the inverse |
| Ring.Distance | src/transport.cc:102-105 | for `1 <= i < nRanks` both peers are ranks other than self, they are reached at distance `i`, and they coincide iff `2i == nRanks` |
| Ring.PeerDistance | src/transport.cc:102-105 | every other rank is the recv peer and the send peer of exactly one distance in `1..nRanks-1` |
| Ring.TagsDistinct | src/transport.cc:103-255 | exchange tags and barrier tags never collide, and distinct distances get distinct tags, for graph ids below 127 |
| Ring.RoundsPartition | src/transport.cc:114-234 | the connection rounds partition the distances `start..nRanks-1` into consecutive runs, every run but the last exactly `maxPeers` long |
| Ring.DrainIsRound | src/transport.cc:159-234 | the first distance that triggers the retry loop ends the first round of the partition |
| Select.ScanChoosesLowest | src/transport.cc:27-41 | the scan chooses the lowest-index capable backend, after backends that all answered "not capable"; it finds none iff every backend answered "not capable"; it stops at the first failed query |
| Select.SelectTransport | src/transport.cc:21-42 | the chosen backend's half is bound to the connector and its setup runs once and is logged; a failed setup's status is returned with no transport type; with no capable backend the result is a system error and nothing changes; a failed query returns its status and nothing changes |
| Intent.RecordedBits | src/transport.cc:51-61 | after recording, bit `c` of peer `q` is set iff it was set before, or `c` is the channel and `q` is a listed, real, other, unconnected peer |
| Intent.RecordedIdempotent | src/transport.cc:51-61 | recording the same intent twice changes nothing more |
| Intent.RecordedStep | src/transport.cc:52-61 | each peer of the list ORs the channel bit into its own mask only, and skips -1, out-of-range, self and connected peers |
| Intent.RecordIntents | src/transport.cc:52-61 | one direction's loop leaves the other direction's masks unchanged and sets its own masks to the recorded ones |
| Intent.P2pConnect | src/transport.cc:46-63 | always succeeds, and the recv and send masks become the recorded masks of the two peer lists |
| P2pPack.MaxTypeIsMax | src/transport.cc:125-136 | the highest transport type is at least every selected type and the start value, and equals one of them |
| P2pPack.MaxTypeConcat | src/transport.cc:120-138 | tracking the highest type over two loops is tracking it over their concatenation |
| P2pPack.BindAllGet | src/transport.cc:120-138 | the selection loop binds exactly the mask's connectors to the chosen transport, and leaves every `connected` flag and every other connector as it was |
| P2pPack.PackDir | src/transport.cc:117-138 | on success one direction's loop logs one setup per mask channel in order, binds those connectors, tracks the highest type, and writes the handles at consecutive slots from the base, leaving the rest of the block; it does not fail when the peer's backend scan finds a capable backend whose setup succeeds for every mask channel (`SelectOk`) |
| P2pPack.SliceHandles | src/transport.cc:123-134 | the written slots of the block are the setup handles of the visited channels |
| P2pPack.PackBoth | src/transport.cc:114-138 | the two loops of one distance leave the recv handles at `0..recvChannels-1` and the send handles right after them, with the setup log, transports and highest type of both |
| P2pPack.PackPeer | src/transport.cc:114-138 | packing one distance yields that layout on success, and with both masks empty it calls nothing and allocates no block; it does not fail when both directions' selections succeed |
| P2pPack.Exchange | src/transport.cc:142-156 | with one peer on both sides, the combined block goes out and comes back, and the send half then precedes the recv half; otherwise each half is sent to its own peer and the replies are received, send peer first; empty halves send nothing; it does not fail when no send or receive of a non-empty half fails |
| P2pDrain.Pending | src/transport.cc:172-213 | the offset counter of a half-block never exceeds the number of mask channels below the current one |
| P2pDrain.PendingFresh | src/transport.cc:172-213 | with no connector yet connected, the offset of each handle is its channel's position in the mask |
| P2pDrain.PendingShifted | src/transport.cc:172-213 | once an earlier connector of the mask is connected, later offsets fall below the channel's position, so the offset no longer follows the packing order |
| P2pDrain.PendingFrame | src/transport.cc:172-213 | the offsets depend only on the `connected` flags of the lower channels |
| P2pDrain.ConnectOne | src/transport.cc:181-210 | the connector's `connect` status is returned unless its device copy fails (CUDA error); on success it alone becomes connected, is recorded and published; nothing else changes |
| P2pDrain.Visit | src/transport.cc:176-211 | a connected connector is skipped without advancing the offset; an unconnected one advances it by one and is handed the block's handle at the offset; `allChannelsConnected` is cleared only by an unconnected connector; the visit does not fail when the connector's `connect` and device copy cannot fail |
| P2pDrain.DrainStep | src/transport.cc:174-213 | one connector step keeps the drain invariant: offset counters, visited connectors, untouched others and the all-connected flag |
| P2pDrain.DrainOne | src/transport.cc:174-213 | one send or recv visit of the channel loop keeps the drain invariant, and does not fail when the visited connector cannot fail to connect |
| P2pDrain.DrainPeer | src/transport.cc:165-214 | one distance of a pass visits its send then recv connector channel by channel, hands each the reference at its offset, and touches no other connector; it does not fail when none of the distance's connectors can fail to connect |
| P2pRound.SlotKeys | src/transport.cc:165-170 | the connectors a distance visits are exactly the round's connectors whose peer is reached at that distance |
| P2pRound.DrainPass | src/transport.cc:164-219 | one retry pass visits every connector of the round with its reference, frees the block of every distance with an intent, and reports all-connected only if every connector is connected; it does not fail when no round connector can fail to connect |
| P2pRound.LaterRefDangles | src/transport.cc:215-218 | after a pass, every reference into the round's blocks dangles |
| P2pRound.BatchStep | src/transport.cc:163-233 | each pass of the retry loop connects only round connectors, by a successful `connect`, and records first-pass references as the exchanged handles and later ones as dangling |
| P2pRound.DrainBatch | src/transport.cc:159-233 | the retry loop ends with every connector of the round connected and recorded, every other connector untouched and the round's blocks freed; it does not fail when no round connector can fail to connect |
| P2pSetup.ExchangedBuf | src/transport.cc:142-156 | after the exchange of distance `i` every slot holds the handle the matching peer sent |
| P2pSetup.ExchangeDistance | src/transport.cc:141-157 | the exchange logs the distance's messages and leaves the `recvData` / `sendData` offsets at their place in the block; it does not fail when no send or receive of the distance fails |
| P2pSetup.PackedPlan | src/transport.cc:114-138 | packing one distance binds, logs and lays out exactly what the plan says for that distance |
| P2pSetup.DistanceStep | src/transport.cc:102-157 | one distance binds its connectors, logs its setups and messages, and stores the exchanged block and offsets in its slot iff it has an intent; it does not fail when the distance's selections and messages succeed (`DistanceOk`) |
| P2pSetup.PackDistance | src/transport.cc:102-157 | selection and exchange of one distance extend the setup invariant, and do not fail when no distance's selection or exchange fails (`DistancesOk`) |
| P2pSetup.RoundDrain | src/transport.cc:159-235 | draining a finished round connects all its intent connectors and moves `done` to the end of the round; it does not fail when no intent connector can fail to connect (`IntentsOk`) |
| P2pSetup.DistanceRound | src/transport.cc:102-235 | one iteration of the distance loop keeps the setup invariant, and does not fail under `SetupOk` (`DistancesOk` and `IntentsOk`) |
| P2pSetup.Distances | src/transport.cc:102-236 | the distance loop leaves every distance bound, exchanged and connected, without touching the intent masks; it does not fail under `SetupOk` |
| P2pSetup.FirstRefFresh | src/transport.cc:172-213 | with none of the lower connectors of its mask connected at entry, a first-pass connect reads the slot at its own channel's position in the mask's visit order, which is the slot its handle was packed into |
| P2pSetup.ProgressFinal | src/transport.cc:102-236 | at the end of the distance loop the setup is done, and the logs, highest type and rounds are those of all distances |
| P2pSetup.SetupRounds | src/transport.cc:79-236 | on success every intent connector is bound to its peer's transport and connected, the other connectors are unchanged, and the setup calls, messages, highest type and rounds are those of the specification functions; it does not fail under `SetupOk` |
| P2pSetup.TopFinal | src/transport.cc:102-236 | once every distance is bound and drained, every intent connector is connected with its selected transport |
| P2pSetup.ClearStep | src/transport.cc:254-277 | the barrier of distance `i` reads the masks as they were at entry and clears exactly that distance's two peers |
| P2pSetup.ClearedAll | src/transport.cc:254-277 | after the barrier every peer's masks are cleared |
| P2pSetup.FlagStep | src/transport.cc:258-275 | one barrier step sends and receives one flag with each peer that had an intent, send peer first, and a single exchange when one peer is on both sides; it does not fail when those flag messages do not fail |
| P2pSetup.BarrierStep | src/transport.cc:254-277 | each barrier step extends the log by the distance's flags and clears its two peers |
| P2pSetup.BarrierDone | src/transport.cc:254-277 | the finished barrier has logged every distance's flags and cleared every other peer's masks |
| P2pSetup.BarrierRound | src/transport.cc:254-277 | one barrier iteration keeps the barrier invariant, and does not fail when the distance's flag messages do not fail (`FlagsOk`) |
| P2pSetup.Barrier | src/transport.cc:250-277 | on success the barrier logs the flags of all distances and leaves only this rank's own masks; it does not fail when no flag message fails (`BarrierOk`) |
| P2pSetup.P2pSetup | src/transport.cc:79-291 | a highest type is reported iff the setup succeeds; on success every intent connector is bound to its peer's transport and connected, a first-pass connect was handed the exchanged handle at the half-block offset plus the number of mask connectors below it that were unconnected at entry, the setup calls, bootstrap messages and highest type are those of the specification, and the masks of every peer are cleared; it does not fail under `NoFailure` |
| CollNet.MastersPrefix | src/transport.cc:339-345 | the masters found in a prefix of the all-gather are a prefix of all masters |
| CollNet.MastersNext | src/transport.cc:340-344 | each all-gather entry appends its handle iff it is a master |
| CollNet.MastersIndex | src/transport.cc:339-345 | a master's handle lands at the index equal to the number of masters before it |
| CollNet.MastersOrigin | src/transport.cc:339-345 | every compacted handle comes from a master entry at that position |
| CollNet.Consolidate | src/transport.cc:339-345 | the loop counts the masters and fills `masterConnects` with their handles in rank order, leaving the rest zeroed |
| CollNet.MasterConnects | src/transport.cc:331-348 | the array handed to the connect has one slot per node; on the recv side it holds the compacted masters' handles and then zeros (see `MastersIndex` / `MastersOrigin` for where each master lands), on the send side only a master's slot `node` holds the received handle and every other slot is zero |
| CollNet.BindRoot | src/transport.cc:313-323 | the root connector is bound to the collective-network backend on every rank; only the master runs and logs setup and takes its status and handle |
| CollNet.GatherMasters | src/transport.cc:331-348 | the all-gather fails only on the recv side; otherwise the array is the compacted masters (recv), the received handle in this node's slot for a send master, or zeros |
| CollNet.ConnectRoot | src/transport.cc:350-356 | the root connects iff the backend connect and both CUDA copies succeed, and only then is the device descriptor written; the connect is handed `masterConnects` writable and the array is left as the backend wrote it |
| CollNet.CollNetSetup | src/transport.cc:297-366 | every rank binds the root connector; the master sets it up; the result is the setup's own code if that fails, 1 if the all-gather, connect or CUDA copy fails, 0 otherwise; a successful recv master hands back slot `node` of `masterConnects` as the connect left it |
| CollNet.SetupResultZero | src/transport.cc:320-361 | collective-network setup reports 0 iff the master's setup, connect and CUDA copies succeed and, on the recv side, the all-gather succeeds |
| CollNet.RecvMasterSlotOwn | src/transport.cc:339-351 | when the master's node equals the number of masters before it, slot `node` of the array handed to the recv connect is its own setup handle |
| CollNet.CollNetCheck | src/transport.cc:368-384 | a failed intra-node all-gather returns its status; otherwise the result is a system error iff some local rank, this one included, reported failure, and success iff none did |
| CollNet.OwnFailureCounts | src/transport.cc:371-379 | this rank's own failure always counts as a node failure |
| CollNet.FreeOne | src/transport.cc:393-401 | `free` is called for the connector iff it holds resources and a backend; the result fails iff that call fails, and then nothing changes; otherwise its resources are cleared; no other connector changes (lifted to key lists by `FreeKeysOutcome` and `FreeKeysCalls`) |
| CollNet.FreeConnector | src/transport.cc:393-401 | a connector with resources and a backend is freed once; its resources pointer is cleared afterwards |
| CollNet.FreeRoot | src/transport.cc:393-402 | the last reference frees the send connectors and then the recv connectors of the root, stopping at the first failed free |
| CollNet.ReleaseChannel | src/transport.cc:389-404 | a channel with a root peer drops one reference, and the last one frees the root |
| CollNet.CollNetFree | src/transport.cc:386-407 | the whole loop over channels yields the state of the channel-by-channel specification, and stops at the first failed free |
| CollNet.FreeKeysFrame | src/transport.cc:393-402 | the free loops change only the resources flag of the connectors they visit, and only clear it |
| CollNet.FreeKeysCalls | src/transport.cc:393-402 | every `free` call is for a visited connector that held resources and a backend at the start, and, given distinct keys, no connector is freed twice |
| CollNet.RootKeysNoDup | src/transport.cc:393-402 | the two free loops of a root visit each of its connectors once |
| CollNet.ReleasedRootCalls | src/transport.cc:392-402 | a channel that drops its root's last reference frees only that root's freeable connectors, each once and none already freed by an earlier channel, and on success all of them |
| CollNet.FreeUpToCalls | src/transport.cc:386-407 | over the whole channel loop every `free` call is for a root connector whose last reference was dropped and that held resources and a backend at the start; no connector is freed twice; after a successful loop every such connector was freed |
| CollNet.FreeKeysOutcome | src/transport.cc:393-402 | on success every visited connector holds no resources and exactly the freeable ones were freed; on failure the last call's status is returned and that connector keeps its resources |
| CollNet.FreeKeysAgain | src/transport.cc:396-401 | freeing a second time calls nothing and changes nothing (no double free) |
| CollNet.FreeKeysIdle | src/transport.cc:393-402 | connectors without resources are never handed to `free` |
| CollNet.FreeUpToOutcome | src/transport.cc:386-407 | after a successful free every channel with a root peer has one reference fewer, the roots whose last reference went hold no resources, and nothing else changed |
| CollNet.FreeUpToStop | src/transport.cc:395-400 | a failed free ends the whole free with that status |

## Left out

- `dumpData` (src/transport.cc:65-72) only prints bytes and is not modelled.
- Logging, timing and the connect-progress report (`INFO`, `TRACE`, `TIME_*`, `gettimeofday`, `printf`) are left out; they affect no state the model tracks.
- The CUDA streams (`ncclStrongStream*`) are left out. The host-to-device copies are modelled only by whether they succeed (`Types.Cuda`).
- Intent.P2pConnect and Intent.RecordIntents require every listed peer to be at least -1. The source tests only `peer == -1`, and a smaller entry would index `channel->peers` out of bounds, so callers must not pass one.
- Allocation failure of `ncclCalloc` is not modelled: every allocation succeeds.
- `maxPeers` (`NCCL_CONNECT_ROUND_MAX_PEERS`, default 128) is a positive parameter of `P2pSetup.P2pSetup`, not read from the environment.
- The bootstrap service, the backends and the CUDA runtime are oracles. Their internals and any concurrency between ranks are not modelled; each rank is modelled on its own.
- The atomic reference-count decrement is modelled as a plain decrement; the other ranks that share the root are not modelled.
- P2pRound.DrainBatch and P2pSetup.P2pSetup: the retry loop is proved to end only under `EventuallyConnects`. This assumes the backend stops answering in-progress after some pass. The source loops forever when it never does.
- Intent.RecordIntents: the source ORs in the bit of `channel->id` for `channel = &comm->channels[channelId]` (src/transport.cc:50-51). The model uses the bit of `channelId` itself, so it assumes `channel->id == channelId`. The channel initialisation that sets `id` is not part of this model.
- Types.Bit: the channel bit `1UL << c` is modelled for `c` below 64, and the channel ids are below `MaxChannels` (32); a wider shift is not modelled.
- A non-master's `myConnect` is uninitialised stack memory in the source; the model uses a zeroed handle.
- CollNet.CollNetSetup and CollNet.Consolidate require that the all-gather reports at most `nNodes` masters. With more, the source writes past `masterConnects`; that overflow is not modelled. CollNet.CollNetSetup asks for this bound on the recv side even when the master's setup or the all-gather fails and no compaction runs, because its contract states the array in every case.
- The descriptor a collective-network connect publishes is modelled as the `masterConnects` array it was handed, not as the backend's connection info. What the connect writes into `masterConnects` is an oracle (`collNetWrite`, slot by slot).
- The type passed to `ncclTransportCollNetSetup` is a direction (`collNetRecv` = 0, `collNetSend` = 1); other values are not modelled.
- A `connect` with a pointer into a freed block is modelled as a `Dangling` reference, with no guess at what memory holds.
- Setting an already-NULL `transportResources` pointer to NULL is modelled as no change to the connector.
- The `strcpy` of the host name into each connector before it connects (src/transport.cc:178 and 198) is not modelled; it changes no field the model tracks.
